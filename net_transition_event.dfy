/**
 * The per-transition record of the older engine (package
 * `net.xiron.pattern.statemachine`): `TransitionEvent`, which carries source,
 * event, target and payload plus a context map for the phases, and
 * `PhaseEnterResult`, the redirect an enter phase may ask for.
 */
module NetTransitionEvent {
  import opened Wrappers
  import opened Payloads
  import Texts

  /** The event (and its payload) an enter phase asks to be processed next. */
  datatype PhaseEnterResult = PhaseEnterResult(event: string, obj: Payload)

  /** What a phase of a transition is handed: the transition's source, event, target and payload. */
  datatype TransitionView = TransitionView(source: string, event: string, target: string, obj: Payload)

  class TransitionEvent {
    /** Source and target are null in the records the queueing machine enqueues. */
    const source: Option<string>
    const event: string
    const target: Option<string>
    const theObject: Payload
    /** One map shared by every phase that is handed this record. */
    var transitionContext: Context

    constructor (source: Option<string>, event: string, target: Option<string>, obj: Payload)
      ensures GetSource() == source && GetEvent() == event && GetTarget() == target && GetObject() == obj
      ensures GetTransitionContext() == map[]
    {
      this.source := source;
      this.event := event;
      this.target := target;
      this.theObject := obj;
      this.transitionContext := map[];
    }

    function GetSource(): Option<string> { source }

    function GetTarget(): Option<string> { target }

    function GetEvent(): string { event }

    function GetObject(): Payload { theObject }

    function GetTransitionContext(): Context
      reads this
    {
      transitionContext
    }

    /** `getTransitionContext().put(key, value)`: the one map is updated, so later reads see the entry. */
    method Put(key: string, value: Payload)
      modifies this
      ensures GetTransitionContext() == old(GetTransitionContext())[key := value]
      ensures key in GetTransitionContext() && GetTransitionContext()[key] == value
    {
      transitionContext := transitionContext[key := value];
    }

    /** `toString`: "source: S - event: E - target: T" (a null name prints as "null"). */
    function ToString(): string
    {
      Describe(NameOrNull(source), event, NameOrNull(target))
    }
  }

  /** How Java's string concatenation prints a possibly null name. */
  function NameOrNull(name: Option<string>): string
  {
    if name.Some? then name.value else "null"
  }

  /** The rendering of a (source, event, target) triple, as `TransitionEvent.toString` writes it. */
  function Describe(source: string, event: string, target: string): string
  {
    "source: " + (source + (" - event: " + (event + (" - target: " + target))))
  }

  /**
   * When source and event names contain no blank, `toString` determines the
   * transition: equal strings mean equal source, event and target.
   */
  lemma DescribeInjective(s1: string, e1: string, t1: string, s2: string, e2: string, t2: string)
    requires ' ' !in s1 && ' ' !in e1 && ' ' !in s2 && ' ' !in e2
    ensures Describe(s1, e1, t1) == Describe(s2, e2, t2) <==> (s1, e1, t1) == (s2, e2, t2)
  {
    if Describe(s1, e1, t1) == Describe(s2, e2, t2) {
      var tail1, tail2 := " - target: " + t1, " - target: " + t2;
      var rest1, rest2 := " - event: " + (e1 + tail1), " - event: " + (e2 + tail2);
      assert Describe(s1, e1, t1)[8..] == s1 + rest1;
      assert Describe(s2, e2, t2)[8..] == s2 + rest2;
      Texts.UniqueSplit(' ', s1, rest1, s2, rest2);
      assert rest1[10..] == e1 + tail1 && rest2[10..] == e2 + tail2;
      Texts.UniqueSplit(' ', e1, tail1, e2, tail2);
      assert tail1[11..] == t1 && tail2[11..] == t2;
    }
  }
}
