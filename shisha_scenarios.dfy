/**
 * Concrete machines of the newer engine, built through the public definition
 * API with the states, events and edges of the repository's own tests, with
 * what those tests expect stated as postconditions.
 */
module ShishaScenarios {
  import opened Wrappers
  import opened Payloads
  import opened ShishaTransitionInfo
  import opened ShishaDefinition
  import opened ShishaEngine

  /** A transition controller that does nothing (the tests' mock). */
  function Noop(view: PhaseView): Context { view.context }

  /** The fixture's events: AB, BC, BB, BA and CC. */
  method DefineTestEvents(def: StateMachineDefinitionImpl)
    requires def.Valid() && def.events == {}
    modifies def
    ensures def.Valid()
    ensures def.IsEvent("EVENT_AB") && def.IsEvent("EVENT_BC") && def.IsEvent("EVENT_BB")
    ensures def.IsEvent("EVENT_BA") && def.IsEvent("EVENT_CC")
    ensures def.states == old(def.states) && def.startState == old(def.startState)
  {
    var _ := def.DefineEvent(Some("EVENT_AB"));
    var _ := def.DefineEvent(Some("EVENT_BC"));
    var _ := def.DefineEvent(Some("EVENT_BB"));
    var _ := def.DefineEvent(Some("EVENT_BA"));
    var _ := def.DefineEvent(Some("EVENT_CC"));
  }

  /**
   * The definition tests' states: start state A, plain state B, final state
   * C, with the first `edges` of the edges A -AB-> B, B -BC-> C, B -BB-> B and
   * B -BA-> A, all with the mock transition controller.
   */
  ghost function TestStates(edges: nat): map<string, State>
  {
    var fromA := if edges >= 1 then map["EVENT_AB" := TransitionTarget("STATE_B", Some(Noop))] else map[];
    var fromB1 := if edges >= 2 then map["EVENT_BC" := TransitionTarget("STATE_C", Some(Noop))] else map[];
    var fromB2 := if edges >= 3 then fromB1["EVENT_BB" := TransitionTarget("STATE_B", Some(Noop))] else fromB1;
    var fromB3 := if edges >= 4 then fromB2["EVENT_BA" := TransitionTarget("STATE_A", Some(Noop))] else fromB2;
    map["STATE_A" := NewState("STATE_A", true, false).(transitions := fromA),
        "STATE_B" := NewState("STATE_B", false, false).(transitions := fromB3),
        "STATE_C" := NewState("STATE_C", false, true)]
  }

  /** The fixture's states, none with a controller or an edge yet. */
  method DefineTestStates(def: StateMachineDefinitionImpl)
    requires def.Valid() && def.states == map[] && def.startState == None
    modifies def
    ensures def.Valid()
    ensures def.states == TestStates(0)
    ensures def.startState == Some("STATE_A")
    ensures def.events == old(def.events)
  {
    var r1 := def.DefineState(Some("STATE_A"), true, false);
    assert r1 == Pass;
    var r2 := def.DefineState(Some("STATE_B"), false, false);
    assert r2 == Pass;
    var r3 := def.DefineState(Some("STATE_C"), false, true);
    assert r3 == Pass;
  }

  /** The fixture's edge A -AB-> B. */
  method DefineTestEdgeAB(def: StateMachineDefinitionImpl)
    requires def.Valid() && def.states == TestStates(0) && def.IsEvent("EVENT_AB")
    modifies def
    ensures def.Valid() && def.states == TestStates(1)
    ensures def.events == old(def.events) && def.startState == old(def.startState)
  {
    var r := def.DefineTransition("STATE_A", "EVENT_AB", "STATE_B", Some(Noop));
    assert r == Pass;
  }

  /** The fixture's edge B -BC-> C. */
  method DefineTestEdgeBC(def: StateMachineDefinitionImpl)
    requires def.Valid() && def.states == TestStates(1) && def.IsEvent("EVENT_BC")
    modifies def
    ensures def.Valid() && def.states == TestStates(2)
    ensures def.events == old(def.events) && def.startState == old(def.startState)
  {
    var r := def.DefineTransition("STATE_B", "EVENT_BC", "STATE_C", Some(Noop));
    assert r == Pass;
  }

  /** The fixture's edge B -BB-> B. */
  method DefineTestEdgeBB(def: StateMachineDefinitionImpl)
    requires def.Valid() && def.states == TestStates(2) && def.IsEvent("EVENT_BB")
    modifies def
    ensures def.Valid() && def.states == TestStates(3)
    ensures def.events == old(def.events) && def.startState == old(def.startState)
  {
    var r := def.DefineTransition("STATE_B", "EVENT_BB", "STATE_B", Some(Noop));
    assert r == Pass;
  }

  /** The fixture's edge B -BA-> A. */
  method DefineTestEdgeBA(def: StateMachineDefinitionImpl)
    requires def.Valid() && def.states == TestStates(3) && def.IsEvent("EVENT_BA")
    modifies def
    ensures def.Valid() && def.states == TestStates(4)
    ensures def.events == old(def.events) && def.startState == old(def.startState)
  {
    TestEdgeBAExtends();
    var r := def.DefineTransition("STATE_B", "EVENT_BA", "STATE_A", Some(Noop));
    assert r == Pass;
  }

  /** The last fixture edge extends the transitions of B alone. */
  lemma TestEdgeBAExtends()
    ensures TestStates(4)
            == TestStates(3)["STATE_B" := TestStates(3)["STATE_B"].SetTransitionController("EVENT_BA", "STATE_A", Some(Noop))]
  {
    var b := TestStates(3)["STATE_B"];
    assert "EVENT_BA" !in b.transitions;
    assert b.SetTransitionController("EVENT_BA", "STATE_A", Some(Noop)) == TestStates(4)["STATE_B"];
  }

  /** The definition tests' fixture: its events, its states and its four edges, built as the tests build it. */
  method BuildTestDefinition() returns (def: StateMachineDefinitionImpl)
    ensures fresh(def) && def.Valid()
    ensures def.IsEvent("EVENT_AB") && def.IsEvent("EVENT_BC") && def.IsEvent("EVENT_BB")
    ensures def.IsEvent("EVENT_BA") && def.IsEvent("EVENT_CC")
    ensures def.states == TestStates(4) && def.startState == Some("STATE_A")
  {
    def := new StateMachineDefinitionImpl();
    DefineTestEvents(def);
    DefineTestStates(def);
    DefineTestEdgeAB(def);
    DefineTestEdgeBC(def);
    DefineTestEdgeBB(def);
    DefineTestEdgeBA(def);
  }

  /** `getFinalStates` on the fixture lists C alone. */
  method FinalStatesScenario() returns (finalStates: seq<string>)
    ensures finalStates == ["STATE_C"]
  {
    var def := BuildTestDefinition();
    finalStates := def.GetFinalStates();
    OnlyMember(finalStates, "STATE_C");
  }

  /** `getStates` on the fixture lists its three states once each. */
  method StatesScenario() returns (states: seq<string>)
    ensures |states| == 3
    ensures forall s :: s in states <==> s == "STATE_A" || s == "STATE_B" || s == "STATE_C"
  {
    var def := BuildTestDefinition();
    states := def.GetStates();
    DistinctLength(states);
    assert (set s | s in states) == {"STATE_A", "STATE_B", "STATE_C"};
  }

  /** On the fixture, AB leads from A to B and `getApplicableEvents(A)` lists AB alone. */
  method ApplicableEventsScenario() returns (target: Result<string, Error>, applicable: seq<string>)
    ensures target == Success("STATE_B")
    ensures applicable == ["EVENT_AB"]
  {
    var def := BuildTestDefinition();
    target := def.GetTargetState(Some("STATE_A"), "EVENT_AB");
    applicable := def.GetApplicableEvents("STATE_A");
    OnlyMember(applicable, "EVENT_AB");
  }

  /** The definition tests' refusals of states and events on the fixture. */
  method DefinitionErrorsScenario()
    returns (startAndFinal: Outcome<Error>, secondStart: Outcome<Error>, stateTwice: Outcome<Error>,
             eventTwice: Outcome<Error>, nullEvent: Outcome<Error>, nullState: Outcome<Error>)
    ensures startAndFinal == Fail(Constraint) && secondStart == Fail(Constraint)
    ensures stateTwice == Fail(StateAlreadyExists) && eventTwice == Fail(EventAlreadyExists)
    ensures nullEvent == Fail(IllegalArgument) && nullState == Fail(IllegalArgument)
  {
    var def := BuildTestDefinition();
    startAndFinal := def.DefineState(Some("DOHH"), true, true);
    secondStart := def.DefineState(Some("STATE_A"), true, false);
    stateTwice := def.DefineState(Some("STATE_A"), false, false);
    eventTwice := def.DefineEvent(Some("EVENT_AB"));
    nullEvent := def.DefineEvent(None);
    nullState := def.DefineState(None, false, false);
  }

  /** The definition tests' refusals of transitions and queries on the fixture. */
  method TransitionErrorsScenario()
    returns (edgeFromFinal: Outcome<Error>, swappedArguments: Outcome<Error>, nullSource: Result<string, Error>)
    ensures edgeFromFinal == Fail(Constraint) && swappedArguments == Fail(StateNotDefined)
    ensures nullSource == Failure(StateNotDefined)
  {
    var def := BuildTestDefinition();
    edgeFromFinal := def.DefineTransition("STATE_C", "EVENT_CC", "STATE_B", Some(Noop));
    // The test passes (source, target, event) where (source, event, target) is expected.
    swappedArguments := def.DefineTransition("STATE_C", "STATE_A", "EVENT_AB", Some(Noop));
    nullSource := def.GetTargetState(None, "EVENT_AB");
  }

  /**
   * Start state A, state B, event AB and the single edge A-AB->B with the given
   * transition controller; the exit controller of A and the enter controller
   * of B are bound only when given.
   */
  method BuildTwoStateDefinition(transition: Option<TransitionController>, exit: Option<ExitStateController>,
                                 enter: Option<EnterStateController>)
    returns (def: StateMachineDefinitionImpl)
    ensures fresh(def) && def.Valid()
    ensures def.GetStartState() == Some("STATE_A") && "EVENT_AB" in def.events
    ensures def.GetTargetState(Some("STATE_A"), "EVENT_AB") == Success("STATE_B")
    ensures def.GetTargetState(Some("STATE_B"), "EVENT_AB") == Failure(TransitionNotDefined)
    ensures def.GetTransitionController("STATE_A", "EVENT_AB") == Success(transition)
    ensures def.GetExitStateController("STATE_A") == Success(exit)
    ensures def.GetEnterStateController("STATE_B") == Success(enter)
  {
    def := new StateMachineDefinitionImpl();
    var _ := def.DefineState(Some("STATE_A"), true, false);
    var _ := def.DefineState(Some("STATE_B"), false, false);
    var _ := def.DefineEvent(Some("EVENT_AB"));
    var _ := def.DefineTransition("STATE_A", "EVENT_AB", "STATE_B", transition);
    if exit.Some? {
      var _ := def.DefineExitState("STATE_A", exit);
    }
    if enter.Some? {
      var _ := def.DefineEnterState("STATE_B", enter);
    }
  }

  /** With the single edge A-AB->B, a second AB finds no edge out of B and leaves the machine in B. */
  method UndefinedTransitionScenario() returns (first: Outcome<Error>, second: Outcome<Error>, finalState: Option<string>)
    ensures first == Pass && second == Fail(TransitionNotDefined)
    ensures finalState == Some("STATE_B")
  {
    var def := BuildTwoStateDefinition(Some(Noop), None, None);
    TransitionCompletes(def, false, "STATE_A", false, "EVENT_AB", Null, 0, "STATE_B", None, Some(Noop), None);
    LookupFailureRefuses(def, false, Some("STATE_B"), false, "EVENT_AB", Null, 0);
    var strategy := new ReentrantStrategy();
    var machine := new StateMachineImpl(def, strategy);
    first := machine.ProcessEvent("EVENT_AB", Null, 0);
    second := machine.ProcessEvent("EVENT_AB", Null, 0);
    finalState := machine.GetCurrentState();
  }

  /** The exit controller of the legal-machine test: always lets the transition go on. */
  function ExitA(view: PhaseView): ExitVerdict { ExitVerdict(true, view.context) }

  /** Its enter controller for STATE_COND: redirects to EVENT_CD. */
  function EnterCond(view: PhaseView): EnterVerdict { EnterVerdict(Some(EventInfo("EVENT_CD", Null)), view.context) }

  /**
   * The legal-machine test's states A (start), B, COND and D, with the edges
   * A -AB-> B, B -BC-> COND and COND -CD-> D, the exit controller of A and the
   * enter controller of COND present as far as the flags say.
   */
  ghost function LegalStates(ab: bool, bc: bool, cd: bool, controllers: bool): map<string, State>
  {
    map["STATE_A" := NewState("STATE_A", true, false).(
          transitions := if ab then map["EVENT_AB" := TransitionTarget("STATE_B", Some(Noop))] else map[],
          exitStateController := if controllers then Some(ExitA) else None),
        "STATE_B" := NewState("STATE_B", false, false).(
          transitions := if bc then map["EVENT_BC" := TransitionTarget("STATE_COND", Some(Noop))] else map[]),
        "STATE_COND" := NewState("STATE_COND", false, false).(
          transitions := if cd then map["EVENT_CD" := TransitionTarget("STATE_D", Some(Noop))] else map[],
          enterStateController := if controllers then Some(EnterCond) else None),
        "STATE_D" := NewState("STATE_D", false, false)]
  }

  /** The legal-machine test's events. */
  const LegalEvents: set<string> := {"EVENT_AB", "EVENT_BB", "EVENT_BC", "EVENT_CD"}

  /** The legal-machine test's states, on an empty definition. */
  method DefineLegalStates(def: StateMachineDefinitionImpl)
    requires def.Valid() && def.startState == None && def.states == map[]
    modifies def
    ensures def.Valid() && def.startState == Some("STATE_A") && def.events == old(def.events)
    ensures def.states == LegalStates(false, false, false, false)
  {
    var r1 := def.DefineState(Some("STATE_A"), true, false);
    assert r1 == Pass;
    var r2 := def.DefineState(Some("STATE_B"), false, false);
    assert r2 == Pass;
    var r3 := def.DefineState(Some("STATE_COND"), false, false);
    assert r3 == Pass;
    var r4 := def.DefineState(Some("STATE_D"), false, false);
    assert r4 == Pass;
  }

  /** The legal-machine test's events, on a definition without events. */
  method DefineLegalEvents(def: StateMachineDefinitionImpl)
    requires def.Valid() && def.events == {}
    modifies def
    ensures def.Valid() && def.events == LegalEvents
    ensures def.states == old(def.states) && def.startState == old(def.startState)
  {
    var _ := def.DefineEvent(Some("EVENT_AB"));
    var _ := def.DefineEvent(Some("EVENT_BB"));
    var _ := def.DefineEvent(Some("EVENT_BC"));
    var _ := def.DefineEvent(Some("EVENT_CD"));
  }

  /** The edge A -AB-> B with the `noop` method. */
  method DefineLegalEdgeAB(def: StateMachineDefinitionImpl)
    requires def.Valid() && def.events == LegalEvents && def.states == LegalStates(false, false, false, false)
    modifies def
    ensures def.Valid() && def.events == LegalEvents && def.startState == old(def.startState)
    ensures def.states == LegalStates(true, false, false, false)
  {
    var _ := def.DefineTransition("STATE_A", "EVENT_AB", "STATE_B", Some(Noop));
  }

  /** The edge B -BC-> COND with the `noop` method. */
  method DefineLegalEdgeBC(def: StateMachineDefinitionImpl)
    requires def.Valid() && def.events == LegalEvents && def.states == LegalStates(true, false, false, false)
    modifies def
    ensures def.Valid() && def.events == LegalEvents && def.startState == old(def.startState)
    ensures def.states == LegalStates(true, true, false, false)
  {
    var _ := def.DefineTransition("STATE_B", "EVENT_BC", "STATE_COND", Some(Noop));
  }

  /** The edge COND -CD-> D with the `noop` method. */
  method DefineLegalEdgeCD(def: StateMachineDefinitionImpl)
    requires def.Valid() && def.events == LegalEvents && def.states == LegalStates(true, true, false, false)
    modifies def
    ensures def.Valid() && def.events == LegalEvents && def.startState == old(def.startState)
    ensures def.states == LegalStates(true, true, true, false)
  {
    var _ := def.DefineTransition("STATE_COND", "EVENT_CD", "STATE_D", Some(Noop));
  }

  /** The exit controller of A and the enter controller of COND. */
  method DefineLegalControllers(def: StateMachineDefinitionImpl)
    requires def.Valid() && def.events == LegalEvents && def.states == LegalStates(true, true, true, false)
    modifies def
    ensures def.Valid() && def.events == LegalEvents && def.startState == old(def.startState)
    ensures def.states == LegalStates(true, true, true, true)
  {
    var _ := def.DefineExitState("STATE_A", Some(ExitA));
    var _ := def.DefineEnterState("STATE_COND", Some(EnterCond));
  }

  /**
   * The legal-machine test's definition: states A (start), B, COND and D,
   * events AB, BB, BC and CD, edges A -AB-> B -BC-> COND -CD-> D, an exit
   * controller on A and an enter controller on COND.
   */
  method BuildLegalDefinition() returns (def: StateMachineDefinitionImpl)
    ensures fresh(def) && def.Valid()
    ensures def.startState == Some("STATE_A") && def.events == LegalEvents
    ensures def.states == LegalStates(true, true, true, true)
  {
    def := new StateMachineDefinitionImpl();
    DefineLegalStates(def);
    DefineLegalEvents(def);
    DefineLegalEdgeAB(def);
    DefineLegalEdgeBC(def);
    DefineLegalEdgeCD(def);
    DefineLegalControllers(def);
  }

  /** What the legal-machine test's definition answers to the lookups its run makes. */
  lemma LegalLookups(def: StateMachineDefinitionImpl)
    requires def.events == LegalEvents && def.states == LegalStates(true, true, true, true)
    ensures "EVENT_AB" in def.events && "EVENT_BC" in def.events && "EVENT_CD" in def.events
    ensures def.GetTargetState(Some("STATE_A"), "EVENT_AB") == Success("STATE_B")
    ensures def.GetTargetState(Some("STATE_B"), "EVENT_BC") == Success("STATE_COND")
    ensures def.GetTargetState(Some("STATE_COND"), "EVENT_CD") == Success("STATE_D")
    ensures def.GetTransitionController("STATE_A", "EVENT_AB") == Success(Some(Noop))
    ensures def.GetTransitionController("STATE_B", "EVENT_BC") == Success(Some(Noop))
    ensures def.GetTransitionController("STATE_COND", "EVENT_CD") == Success(Some(Noop))
    ensures def.GetExitStateController("STATE_A") == Success(Some(ExitA))
    ensures def.GetExitStateController("STATE_B") == Success(None)
    ensures def.GetExitStateController("STATE_COND") == Success(None)
    ensures def.GetEnterStateController("STATE_B") == Success(None)
    ensures def.GetEnterStateController("STATE_COND") == Success(Some(EnterCond))
    ensures def.GetEnterStateController("STATE_D") == Success(None)
  {
  }

  /**
   * On the legal-machine test's definition, AB from A ends in B, and BC from
   * B ends in D, through COND's redirect to CD; both return normally.
   */
  lemma LegalRuns(def: StateMachineDefinitionImpl)
    requires def.events == LegalEvents && def.states == LegalStates(true, true, true, true)
    ensures var run := Process(def, false, Some("STATE_A"), false, "EVENT_AB", Null, 1);
            run.outcome == Pass && run.current == Some("STATE_B") && !run.inTransition
    ensures var run := Process(def, false, Some("STATE_B"), false, "EVENT_BC", Null, 1);
            run.outcome == Pass && run.current == Some("STATE_D") && !run.inTransition
  {
    LegalLookups(def);
    TransitionCompletes(def, false, "STATE_A", false, "EVENT_AB", Null, 1, "STATE_B", Some(ExitA), Some(Noop), None);
    TransitionCompletes(def, false, "STATE_COND", false, "EVENT_CD", Null, 0, "STATE_D", None, Some(Noop), None);
    RedirectContinuesFromTarget(def, false, "STATE_B", false, "EVENT_BC", Null, 1, "STATE_COND",
                                None, Some(Noop), EnterCond, EventInfo("EVENT_CD", Null));
  }

  /**
   * AB takes the machine from A to B; BC then enters COND, whose enter
   * controller redirects to CD, so the machine ends in D.
   */
  method RedirectScenario() returns (first: Outcome<Error>, second: Outcome<Error>, finalState: Option<string>)
    ensures first == Pass && second == Pass && finalState == Some("STATE_D")
  {
    var def := BuildLegalDefinition();
    LegalRuns(def);
    var strategy := new ReentrantStrategy();
    var machine := new StateMachineImpl(def, strategy);
    first := machine.ProcessEvent("EVENT_AB", Null, 1);
    second := machine.ProcessEvent("EVENT_BC", Null, 1);
    finalState := machine.GetCurrentState();
  }

  /** The context test's controllers: exit puts HELLO, the transition puts GOODBYE, enter only reads. */
  function PutHello(view: PhaseView): ExitVerdict { ExitVerdict(true, view.context["HELLO" := Obj(1)]) }

  function PutGoodbye(view: PhaseView): Context { view.context["GOODBYE" := Obj(2)] }

  function ReadBoth(view: PhaseView): EnterVerdict { EnterVerdict(None, view.context) }

  /**
   * The enter controller of A -AB-> B, the third controller called, sees both
   * entries written by the earlier phases of the same transition.
   */
  method TransitionContextScenario()
    returns (outcome: Outcome<Error>, finalState: Option<string>, ghost calls: seq<PhaseCall>)
    ensures outcome == Pass && finalState == Some("STATE_B")
    ensures |calls| == 3 && calls[2].phase == EnterPhase
    ensures calls[2].view.context == map["HELLO" := Obj(1), "GOODBYE" := Obj(2)]
  {
    var def := BuildTwoStateDefinition(Some(PutGoodbye), Some(PutHello), Some(ReadBoth));
    TransitionCompletes(def, false, "STATE_A", false, "EVENT_AB", Obj(0), 0, "STATE_B",
                        Some(PutHello), Some(PutGoodbye), Some(ReadBoth));
    ContextIsShared(def, false, "STATE_A", false, "EVENT_AB", Obj(0), 0, PutHello, PutGoodbye, ReadBoth);
    var strategy := new ReentrantStrategy();
    var machine := new StateMachineImpl(def, strategy);
    outcome := machine.ProcessEvent("EVENT_AB", Obj(0), 0);
    finalState := machine.GetCurrentState();
    calls := strategy.calls;
    assert calls[2] == PhaseCall(EnterPhase, PhaseView("STATE_A", "EVENT_AB", "STATE_B", Obj(0),
                                                       map["HELLO" := Obj(1), "GOODBYE" := Obj(2)]));
  }
}
