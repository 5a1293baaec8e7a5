/**
 * The dispatch table of the older generation's annotation processors:
 * `TransitionDictionary`, a list of annotated methods searched front to back
 * for the first one declared for a given source, target, event and phase.
 * Both `AnnotatedControllerProcessor` classes carry the same nested copy of it.
 */
module NetDispatch {
  import opened Wrappers
  import opened Payloads
  import opened NetTransitionEvent
  import opened NetEngine

  /** The phase an annotated method is declared for. */
  datatype TransitionPhases = PhaseExit | PhaseTransition | PhaseEnter

  /** The values of one `@Transition` annotation. */
  datatype Transition = Transition(source: string, target: string, event: string, phase: TransitionPhases)

  /**
   * What the annotated method gives back when it is invoked as an exit phase
   * (go on or cancel) or as an enter phase (a redirect or `null`). The entry
   * is found by its source, target and event, so the payload is all that
   * varies from one invocation to the next.
   */
  datatype Handler = Handler(onExit: Payload -> bool, onEnter: Payload -> Option<PhaseEnterResult>)

  /** One entry of the dictionary: the annotation and the method it is on. */
  datatype TransitionDefinition = TransitionDefinition(transition: Transition, handler: Handler)

  /**
   * `findBy`'s test: target, source, event and phase all equal the query. A
   * null source or target in the query equals no annotation value.
   */
  predicate Matches(d: TransitionDefinition, source: Option<string>, target: Option<string>, event: string,
                    phase: TransitionPhases)
  {
    && target == Some(d.transition.target)
    && source == Some(d.transition.source)
    && d.transition.event == event
    && d.transition.phase == phase
  }

  /** The position of the first entry matching the query, if any. */
  function FirstMatch(entries: seq<TransitionDefinition>, source: Option<string>, target: Option<string>,
                      event: string, phase: TransitionPhases): (r: Option<nat>)
    ensures r.Some? ==> r.value < |entries| && Matches(entries[r.value], source, target, event, phase)
    ensures r.Some? ==> forall j :: 0 <= j < r.value ==> !Matches(entries[j], source, target, event, phase)
    ensures r.None? ==> forall j :: 0 <= j < |entries| ==> !Matches(entries[j], source, target, event, phase)
    decreases |entries|
  {
    if entries == [] then None
    else if Matches(entries[0], source, target, event, phase) then Some(0)
    else match FirstMatch(entries[1..], source, target, event, phase)
      case None => None
      case Some(i) => Some(i + 1)
  }

  /** The entry `findBy` answers with: the first match, or `null`. */
  function Lookup(entries: seq<TransitionDefinition>, source: Option<string>, target: Option<string>,
                  event: string, phase: TransitionPhases): Option<TransitionDefinition>
  {
    match FirstMatch(entries, source, target, event, phase)
    case None => None
    case Some(i) => Some(entries[i])
  }

  /**
   * Adding an entry never changes what an existing query finds: the new
   * entry is found only by queries that found nothing before.
   */
  lemma {:induction false} LookupAfterAdd(entries: seq<TransitionDefinition>, d: TransitionDefinition,
                                          source: Option<string>, target: Option<string>, event: string,
                                          phase: TransitionPhases)
    ensures Lookup(entries + [d], source, target, event, phase)
            == if Lookup(entries, source, target, event, phase).Some? then Lookup(entries, source, target, event, phase)
               else if Matches(d, source, target, event, phase) then Some(d)
               else None
    decreases |entries|
  {
    if entries != [] {
      assert (entries + [d])[0] == entries[0];
      assert (entries + [d])[1..] == entries[1..] + [d];
      LookupAfterAdd(entries[1..], d, source, target, event, phase);
    }
  }

  /**
   * The answer of the exit phase: `true` (go on) when no exit entry matches,
   * otherwise what the first matching method answers.
   */
  function ExitVerdict(entries: seq<TransitionDefinition>, source: Option<string>, target: Option<string>,
                       event: string, obj: Payload): (r: bool)
    ensures (forall j :: 0 <= j < |entries| ==> !Matches(entries[j], source, target, event, PhaseExit)) ==> r
    ensures forall i :: 0 <= i < |entries| && Matches(entries[i], source, target, event, PhaseExit)
              && (forall j :: 0 <= j < i ==> !Matches(entries[j], source, target, event, PhaseExit))
              ==> r == entries[i].handler.onExit(obj)
  {
    match Lookup(entries, source, target, event, PhaseExit)
    case None => true
    case Some(d) => d.handler.onExit(obj)
  }

  /**
   * The answer of the enter phase: no redirect when no enter entry matches,
   * otherwise what the first matching method answers.
   */
  function EnterVerdict(entries: seq<TransitionDefinition>, source: Option<string>, target: Option<string>,
                        event: string, obj: Payload): (r: Option<PhaseEnterResult>)
    ensures (forall j :: 0 <= j < |entries| ==> !Matches(entries[j], source, target, event, PhaseEnter)) ==> r.None?
    ensures forall i :: 0 <= i < |entries| && Matches(entries[i], source, target, event, PhaseEnter)
              && (forall j :: 0 <= j < i ==> !Matches(entries[j], source, target, event, PhaseEnter))
              ==> r == entries[i].handler.onEnter(obj)
  {
    match Lookup(entries, source, target, event, PhaseEnter)
    case None => None
    case Some(d) => d.handler.onEnter(obj)
  }

  /**
   * A record whose source or target is null (as in the records the queueing
   * machine enqueues) matches no entry, so every phase takes its default.
   */
  lemma NullEndpointsTakeDefaults(entries: seq<TransitionDefinition>, source: Option<string>, target: Option<string>,
                                  event: string, obj: Payload)
    requires source.None? || target.None?
    ensures ExitVerdict(entries, source, target, event, obj)
    ensures EnterVerdict(entries, source, target, event, obj).None?
    ensures Lookup(entries, source, target, event, PhaseTransition).None?
  {
  }

  /** The phases of a processor whose dictionary holds `entries`, as the strategy calls them. */
  function DictionaryController(entries: seq<TransitionDefinition>): TransitionController
  {
    TransitionController(
      (view: TransitionView) => ExitVerdict(entries, Some(view.source), Some(view.target), view.event, view.obj),
      (view: TransitionView) => EnterVerdict(entries, Some(view.source), Some(view.target), view.event, view.obj))
  }

  class TransitionDictionary {
    var entries: seq<TransitionDefinition>

    constructor ()
      ensures entries == []
    {
      entries := [];
    }

    /** `addTransition`: the entry goes to the end of the list. */
    method AddTransition(tx: Transition, handler: Handler)
      modifies this
      ensures entries == old(entries) + [TransitionDefinition(tx, handler)]
    {
      entries := entries + [TransitionDefinition(tx, handler)];
    }

    /** `findBy`: a scan from the front that stops at the first match. */
    method FindBy(source: Option<string>, target: Option<string>, event: string, phase: TransitionPhases)
      returns (r: Option<TransitionDefinition>)
      ensures r == Lookup(entries, source, target, event, phase)
    {
      r := None;
      var i := 0;
      while i < |entries|
        invariant 0 <= i <= |entries|
        invariant forall j :: 0 <= j < i ==> !Matches(entries[j], source, target, event, phase)
      {
        if Matches(entries[i], source, target, event, phase) {
          r := Some(entries[i]);
          break;
        }
        i := i + 1;
      }
    }
  }
}
