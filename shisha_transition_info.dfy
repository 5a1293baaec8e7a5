/**
 * The per-transition context of the newer engine (package `shisha.statemachine`):
 * `EventInfo`, an event with its payload, and `TransitionInfo`, which adds the
 * source and target states and a context map shared by the three phases.
 */
module ShishaTransitionInfo {
  import opened Payloads
  import Texts

  /** An event name with the object passed along with it; an enter controller returns one to redirect. */
  datatype EventInfo = EventInfo(event: string, obj: Payload)

  /**
   * What a phase controller is handed: the fixed fields of the `TransitionInfo`
   * and its context map as earlier phases of the same transition left it.
   */
  datatype PhaseView = PhaseView(source: string, event: string, target: string, obj: Payload, context: Context)

  class TransitionInfo {
    const source: string
    const target: string
    /** The `EventInfo` this class extends: the event being processed and its payload. */
    const eventInfo: EventInfo
    /** The one map every phase of this transition reads and writes. */
    var transitionContext: Context

    constructor (source: string, event: string, target: string, obj: Payload)
      ensures GetSource() == source && GetTarget() == target
      ensures GetEvent() == event && GetObject() == obj
      ensures GetTransitionContext() == map[]
    {
      this.source := source;
      this.target := target;
      this.eventInfo := EventInfo(event, obj);
      this.transitionContext := map[];
    }

    function GetSource(): string { source }

    function GetTarget(): string { target }

    function GetEvent(): string { eventInfo.event }

    function GetObject(): Payload { eventInfo.obj }

    function GetTransitionContext(): Context
      reads this
    {
      transitionContext
    }

    /** `getTransitionContext().put(key, value)`: the map is shared, so the entry is seen by every later read. */
    method Put(key: string, value: Payload)
      modifies this
      ensures GetTransitionContext() == old(GetTransitionContext())[key := value]
      ensures key in GetTransitionContext() && GetTransitionContext()[key] == value
    {
      transitionContext := transitionContext[key := value];
    }

    /** The view a controller receives when this object is passed to it. */
    function View(): (v: PhaseView)
      reads this
      ensures v.source == source && v.event == GetEvent() && v.target == target && v.obj == GetObject()
      ensures v.context == transitionContext
    {
      PhaseView(source, eventInfo.event, target, eventInfo.obj, transitionContext)
    }

    /** `toString`: "[" source " + " event " -> " target "]". */
    function ToString(): string
    {
      Render(source, eventInfo.event, target)
    }
  }

  /** The rendering of a (source, event, target) triple, as `TransitionInfo.toString` writes it. */
  function Render(source: string, event: string, target: string): string
  {
    "[" + source + " + " + event + " -> " + target + "]"
  }

  /**
   * When source and event names contain no blank, `toString` determines the
   * transition: equal strings mean equal source, event and target.
   */
  lemma RenderInjective(s1: string, e1: string, t1: string, s2: string, e2: string, t2: string)
    requires ' ' !in s1 && ' ' !in e1 && ' ' !in s2 && ' ' !in e2
    ensures Render(s1, e1, t1) == Render(s2, e2, t2) <==> (s1, e1, t1) == (s2, e2, t2)
  {
    if Render(s1, e1, t1) == Render(s2, e2, t2) {
      var tail1 := " -> " + t1 + "]";
      var tail2 := " -> " + t2 + "]";
      assert Render(s1, e1, t1)[1..] == s1 + (" + " + e1 + tail1);
      assert Render(s2, e2, t2)[1..] == s2 + (" + " + e2 + tail2);
      Texts.UniqueSplit(' ', s1, " + " + e1 + tail1, s2, " + " + e2 + tail2);
      assert (" + " + e1 + tail1)[3..] == e1 + tail1;
      assert (" + " + e2 + tail2)[3..] == e2 + tail2;
      Texts.UniqueSplit(' ', e1, tail1, e2, tail2);
      assert tail1[4..] == t1 + "]" && tail2[4..] == t2 + "]";
      assert t1 == (t1 + "]")[..|t1|] && t2 == (t2 + "]")[..|t2|];
    }
  }
}
