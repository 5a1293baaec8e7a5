/**
 * The definition graph of the older engine: `StateMachineDefinitionImpl` of
 * package `net.xiron.pattern.statemachine`. Unlike the newer one it absorbs
 * repeated definitions of events and states, reports every undeclared name in
 * `defineTransition` as an undeclared state, has no final-state restriction
 * on transitions and takes `defineTransition`'s arguments as (source, target,
 * event).
 */
module NetDefinition {
  import opened Wrappers

  /**
   * The exceptions of the older engine (package
   * `net.xiron.pattern.statemachine.exceptions`, plus the JDK's
   * `IllegalArgumentException` and `UnsupportedOperationException`).
   */
  datatype Error =
    | IllegalArgument
      /** `StateMachineDefinitionException` itself, thrown by `defineState`. */
    | DefinitionError
    | StateNotDefined
    | EventNotDefined
    | TransitionNotDefined
    | ReentrantTransitionNotAllowed
      /** Thrown by the JDK when an element is added to `Collections.emptyList()`. */
    | UnsupportedOperation
      /** Not a Java exception: the redirect chain ran longer than the fuel the model was given. */
    | RedirectLimitReached

  /** The private `State` record: its name, final flag and outgoing edges as event to target state. */
  datatype State = State(name: string, isFinal: bool, transitions: map<string, string>)
  {
    /** `State.defineTransition`: only the first target registered for an event is kept. */
    function DefineTransition(target: string, event: string): (s: State)
      ensures s.name == name && s.isFinal == isFinal
      ensures s.transitions.Keys == transitions.Keys + {event}
      ensures forall e :: e in transitions ==> s.transitions[e] == transitions[e]
      ensures event !in transitions ==> s.transitions[event] == target
    {
      if event in transitions then this else this.(transitions := transitions[event := target])
    }
  }

  class StateMachineDefinitionImpl {
    var startState: Option<string>
    var states: map<string, State>
    var events: set<string>

    /**
     * The invariants every operation keeps: each state is filed under its own
     * name, the start state (if any) is declared, and edges use declared
     * events and lead to declared states.
     */
    ghost predicate Valid()
      reads this
    {
      && (forall s {:trigger states[s]} :: s in states ==> states[s].name == s)
      && (startState.Some? ==> startState.value in states)
      && (forall s, e {:trigger states[s].transitions[e]} :: s in states && e in states[s].transitions ==>
            e in events && states[s].transitions[e] in states)
    }

    constructor ()
      ensures Valid()
      ensures startState == None && states == map[] && events == {}
    {
      startState := None;
      states := map[];
      events := {};
    }

    function IsEvent(event: string): bool
      reads this
    {
      event in events
    }

    function IsState(state: string): bool
      reads this
    {
      state in states
    }

    /** `defineEvent`: a null name is illegal; otherwise the event is added, and defining it again is harmless. */
    method DefineEvent(event: Option<string>) returns (r: Outcome<Error>)
      requires Valid()
      modifies this
      ensures Valid()
      ensures r.Fail? <==> event.None?
      ensures r.Fail? ==> r.error == IllegalArgument
      ensures events == old(events) + (if event.Some? then {event.value} else {})
      ensures states == old(states) && startState == old(startState)
    {
      if event.None? {
        return Fail(IllegalArgument);
      }
      events := events + {event.value};
      r := Pass;
    }

    /** `getEvents()`: a fresh list holding every declared event once, filled by a loop over the set. */
    method GetEvents() returns (r: seq<string>)
      ensures forall e :: e in r <==> IsEvent(e)
      ensures NoDuplicates(r)
    {
      r := [];
      var rest := events;
      while rest != {}
        invariant rest <= events
        invariant forall e :: e in r <==> e in events && e !in rest
        invariant NoDuplicates(r)
        decreases rest
      {
        var evt :| evt in rest;
        r := r + [evt];
        rest := rest - {evt};
      }
    }

    /**
     * `defineState(state, isStart, isFinal)`: null, a second start state and
     * start-and-final are refused before anything changes. A state already
     * declared keeps its record (and its final flag), yet `isStart` still
     * makes it the start state.
     */
    method DefineState(state: Option<string>, isStart: bool, isFinal: bool) returns (r: Outcome<Error>)
      requires Valid()
      modifies this
      ensures Valid()
      ensures state.None? ==> r == Fail(IllegalArgument)
      ensures state.Some? && isStart && (old(startState).Some? || isFinal) ==> r == Fail(DefinitionError)
      ensures r.Pass? <==> state.Some? && !(isStart && (old(startState).Some? || isFinal))
      ensures r.Fail? ==> states == old(states) && startState == old(startState)
      ensures r.Pass? && state.value !in old(states) ==> states == old(states)[state.value := State(state.value, isFinal, map[])]
      ensures r.Pass? && state.value in old(states) ==> states == old(states)
      ensures r.Pass? ==> startState == if isStart then state else old(startState)
      ensures events == old(events)
    {
      if state.None? {
        return Fail(IllegalArgument);
      }
      var name := state.value;
      if isStart && startState.Some? {
        return Fail(DefinitionError);
      }
      if isStart && isFinal {
        return Fail(DefinitionError);
      }
      if name !in states {
        states := states[name := State(name, isFinal, map[])];
      }
      if isStart {
        startState := state;
      }
      r := Pass;
    }

    /** `getStartState`: null until a start state is defined, then a declared state. */
    function GetStartState(): (r: Option<string>)
      reads this
      ensures Valid() && r.Some? ==> IsState(r.value)
    {
      startState
    }

    /**
     * `defineTransition(source, target, event)`: an undeclared source, target
     * or event is each reported as `StateNotDefinedException`; otherwise the
     * edge is added unless one for (source, event) already exists.
     */
    method DefineTransition(source: string, target: string, event: string) returns (r: Outcome<Error>)
      requires Valid()
      modifies this
      ensures Valid()
      ensures r.Fail? <==> source !in old(states) || target !in old(states) || event !in events
      ensures r.Fail? ==> r.error == StateNotDefined && states == old(states)
      ensures r.Pass? ==> states == old(states)[source := old(states)[source].DefineTransition(target, event)]
      ensures r.Pass? && event !in old(states)[source].transitions ==> GetTargetState(Some(source), event) == Success(target)
      ensures r.Pass? && event in old(states)[source].transitions ==>
                GetTargetState(Some(source), event) == Success(old(states)[source].transitions[event])
      ensures events == old(events) && startState == old(startState)
    {
      if source !in states {
        return Fail(StateNotDefined);
      }
      if target !in states {
        return Fail(StateNotDefined);
      }
      if event !in events {
        return Fail(StateNotDefined);
      }
      states := states[source := states[source].DefineTransition(target, event)];
      r := Pass;
    }

    /**
     * `getTargetState(source, event)`: the registered target; an unknown (or
     * null) source is `StateNotDefined`, a missing edge `TransitionNotDefined`.
     */
    function GetTargetState(source: Option<string>, event: string): (r: Result<string, Error>)
      reads this
      ensures source.None? || source.value !in states ==> r == Failure(StateNotDefined)
      ensures source.Some? && source.value in states && event !in states[source.value].transitions ==>
                r == Failure(TransitionNotDefined)
      ensures r.Success? ==> source.Some? && source.value in states && event in states[source.value].transitions
    {
      if source.None? || source.value !in states then Failure(StateNotDefined)
      else if event !in states[source.value].transitions then Failure(TransitionNotDefined)
      else Success(states[source.value].transitions[event])
    }

    /** `getStates`: a fresh list holding every declared state once. */
    method GetStates() returns (r: seq<string>)
      ensures forall s :: s in r <==> IsState(s)
      ensures NoDuplicates(r)
    {
      r := [];
      var rest := states.Keys;
      while rest != {}
        invariant rest <= states.Keys
        invariant forall s :: s in r <==> s in states && s !in rest
        invariant NoDuplicates(r)
        decreases rest
      {
        var key :| key in rest;
        r := r + [key];
        rest := rest - {key};
      }
    }

    /**
     * `getEvents(source)` as written: the result starts as the immutable
     * `Collections.emptyList()`, so the first `add` in the loop throws. The
     * call only succeeds, with an empty list, for an undefined state or a
     * state without edges.
     */
    method GetEventsOfAsWritten(source: string) returns (r: Result<seq<string>, Error>)
      ensures r.Failure? <==> source in states && states[source].transitions != map[]
      ensures r.Failure? ==> r.error == UnsupportedOperation
      ensures r.Success? ==> r.value == []
    {
      var result: seq<string> := [];
      if IsState(source) {
        var transitions := states[source].transitions;
        // The loop over the edges never gets past its first `add`.
        if transitions.Keys != {} {
          return Failure(UnsupportedOperation);
        }
      }
      return Success(result);
    }

    /**
     * `getEvents(source)` as intended: exactly the events with an edge out of
     * `source`, each once; empty for an undefined state.
     */
    method GetEventsOf(source: string) returns (r: seq<string>)
      ensures forall e :: e in r <==> GetTargetState(Some(source), e).Success?
      ensures source !in states ==> r == []
      ensures NoDuplicates(r)
    {
      r := [];
      if IsState(source) {
        var transitions := states[source].transitions;
        var rest := transitions.Keys;
        while rest != {}
          invariant rest <= transitions.Keys
          invariant forall e :: e in r <==> e in transitions && e !in rest
          invariant NoDuplicates(r)
          decreases rest
        {
          var key :| key in rest;
          r := r + [key];
          rest := rest - {key};
        }
      }
    }
  }
}
