/**
 * `ReentrantStateMachine`: a machine that accepts events while it is busy.
 * Every accepted event is appended to a queue; the call that finds the
 * machine idle becomes the drainer and processes the queue head first until it
 * is empty, while a call made during a transition only enqueues.
 */
module NetReentrantMachine {
  import opened Wrappers
  import opened Payloads
  import opened NetTransitionEvent
  import opened NetDefinition
  import opened NetEngine

  /** An accepted event, as the queue's `TransitionEvent` records carry it. */
  datatype Submission = Submission(event: string, obj: Payload)

  /** The events and payloads held by a queue of records, in order. */
  function Pending(queue: seq<TransitionEvent>): (items: seq<Submission>)
    ensures |items| == |queue|
    ensures forall i :: 0 <= i < |queue| ==> items[i] == Submission(queue[i].event, queue[i].theObject)
  {
    seq(|queue|, i requires 0 <= i < |queue| => Submission(queue[i].event, queue[i].theObject))
  }

  /**
   * The effect of draining a queue: how the drain ended, the machine's
   * state and its strategy's flag afterwards, the submissions taken off the
   * queue (in order) and those left on it.
   */
  datatype Drained = Drained(outcome: Outcome<Error>, current: Option<string>, flag: bool,
                             processed: seq<Submission>, remaining: seq<Submission>)

  /** A drain that first processed `processed`, then went on as `d`. */
  function After(processed: seq<Submission>, d: Drained): Drained
  {
    d.(processed := processed + d.processed)
  }

  /**
   * The drain loop: take the head off the queue, process it, and stop at the
   * first failure (whose error reaches the drainer's caller) or once the
   * queue is empty.
   */
  function Drain(def: StateMachineDefinitionImpl, allows: bool, current: Option<string>, flag: bool,
                 controller: TransitionController, items: seq<Submission>, fuel: nat): (d: Drained)
    reads def
    decreases |items|
    ensures d.processed + d.remaining == items
    ensures d.outcome.Pass? ==> d.remaining == []
    ensures items != [] ==> d.processed != []
  {
    if items == [] then Drained(Pass, current, flag, [], [])
    else
      var run := Process(def, allows, current, flag, items[0].event, items[0].obj, controller, fuel);
      if run.outcome.Fail? then Drained(run.outcome, run.current, run.inTransition, [items[0]], items[1..])
      else After([items[0]], Drain(def, allows, run.current, run.inTransition, controller, items[1..], fuel))
  }

  /** One turn of the drain loop: the head is processed, and the drain stops on its failure or goes on with the rest. */
  lemma DrainStep(def: StateMachineDefinitionImpl, allows: bool, current: Option<string>, flag: bool,
                  controller: TransitionController, items: seq<Submission>, fuel: nat)
    requires items != []
    ensures var run := Process(def, allows, current, flag, items[0].event, items[0].obj, controller, fuel);
            Drain(def, allows, current, flag, controller, items, fuel)
            == if run.outcome.Fail? then Drained(run.outcome, run.current, run.inTransition, [items[0]], items[1..])
               else After([items[0]], Drain(def, allows, run.current, run.inTransition, controller, items[1..], fuel))
  {
  }

  /**
   * What is left of a drain once the last event processed ended with
   * `outcome`: nothing more after a failure, otherwise the drain of the rest.
   */
  function Resume(def: StateMachineDefinitionImpl, allows: bool, outcome: Outcome<Error>, current: Option<string>,
                  flag: bool, controller: TransitionController, items: seq<Submission>, fuel: nat): Drained
    reads def
  {
    if outcome.Fail? then Drained(outcome, current, flag, [], items)
    else Drain(def, allows, current, flag, controller, items, fuel)
  }

  /** Two stretches of a drain recorded one after the other read as one stretch. */
  lemma AfterAfter(first: seq<Submission>, second: seq<Submission>, d: Drained)
    ensures After(first, After(second, d)) == After(first + second, d)
  {
    AppendAssociative(first, second, d.processed);
  }

  /**
   * The drain loop's invariant carried over one turn: a drain that has
   * processed `processed` and still has `items` to go continues from the
   * head's outcome and new state with the rest.
   */
  lemma DrainAdvance(def: StateMachineDefinitionImpl, allows: bool, current: Option<string>, flag: bool,
                     controller: TransitionController, items: seq<Submission>, fuel: nat,
                     processed: seq<Submission>, total: Drained)
    requires items != []
    requires total == After(processed, Drain(def, allows, current, flag, controller, items, fuel))
    ensures var run := Process(def, allows, current, flag, items[0].event, items[0].obj, controller, fuel);
            total == After(processed + [items[0]],
                           Resume(def, allows, run.outcome, run.current, run.inTransition, controller, items[1..], fuel))
  {
    var run := Process(def, allows, current, flag, items[0].event, items[0].obj, controller, fuel);
    DrainStep(def, allows, current, flag, controller, items, fuel);
    var rest := Resume(def, allows, run.outcome, run.current, run.inTransition, controller, items[1..], fuel);
    if run.outcome.Fail? {
      assert processed + [items[0]] + [] == processed + [items[0]];
    } else {
      AfterAfter(processed, [items[0]], rest);
    }
  }

  /**
   * First in, first out: an event queued behind others that all succeed is
   * processed after them, from the state they left the machine in.
   */
  lemma {:induction false} DrainAppend(def: StateMachineDefinitionImpl, allows: bool, current: Option<string>, flag: bool,
                                       controller: TransitionController, items: seq<Submission>, last: Submission,
                                       fuel: nat)
    requires Drain(def, allows, current, flag, controller, items, fuel).outcome.Pass?
    ensures var d := Drain(def, allows, current, flag, controller, items, fuel);
            Drain(def, allows, current, flag, controller, items + [last], fuel)
            == After(d.processed, Drain(def, allows, d.current, d.flag, controller, [last], fuel))
    decreases |items|
  {
    if items == [] {
      assert items + [last] == [last];
    } else {
      DrainStep(def, allows, current, flag, controller, items, fuel);
      var run := Process(def, allows, current, flag, items[0].event, items[0].obj, controller, fuel);
      assert items + [last] == [items[0]] + (items[1..] + [last]);
      DrainCons(def, allows, current, flag, controller, items[0], items[1..] + [last], fuel);
      DrainAppend(def, allows, run.current, run.inTransition, controller, items[1..], last, fuel);
      var rest := Drain(def, allows, run.current, run.inTransition, controller, items[1..], fuel);
      var tail := Drain(def, allows, rest.current, rest.flag, controller, [last], fuel);
      AppendAssociative([items[0]], rest.processed, tail.processed);
    }
  }

  /** A drain that ends normally has processed every queued submission, in queue order. */
  lemma DrainEmptiesQueue(def: StateMachineDefinitionImpl, allows: bool, current: Option<string>, flag: bool,
                          controller: TransitionController, items: seq<Submission>, fuel: nat)
    requires Drain(def, allows, current, flag, controller, items, fuel).outcome.Pass?
    ensures Drain(def, allows, current, flag, controller, items, fuel).processed == items
  {
  }

  /**
   * A drain that fails stops at the first failure: every submission it took
   * before the last one was processed normally, and the failure, the state
   * and the flag it reports are those of processing that last submission.
   */
  lemma DrainStopsAtFailure(def: StateMachineDefinitionImpl, allows: bool, current: Option<string>,
                            flag: bool, controller: TransitionController, items: seq<Submission>, fuel: nat)
    requires Drain(def, allows, current, flag, controller, items, fuel).outcome.Fail?
    ensures var d := Drain(def, allows, current, flag, controller, items, fuel);
            |d.processed| > 0
            && var before := Drain(def, allows, current, flag, controller, d.processed[..|d.processed| - 1], fuel);
               var last := d.processed[|d.processed| - 1];
               var run := Process(def, allows, before.current, before.flag, last.event, last.obj, controller, fuel);
               before.outcome.Pass? && run.outcome == d.outcome && run.current == d.current && run.inTransition == d.flag
  {
    var prefix, last := FailingSubmission(def, allows, current, flag, controller, items, fuel);
    var d := Drain(def, allows, current, flag, controller, items, fuel);
    assert d.processed[..|d.processed| - 1] == prefix && d.processed[|d.processed| - 1] == last;
  }

  /** The submissions a failed drain took, split into those processed normally and the one that failed. */
  lemma {:induction false} FailingSubmission(def: StateMachineDefinitionImpl, allows: bool, current: Option<string>,
                                             flag: bool, controller: TransitionController, items: seq<Submission>,
                                             fuel: nat)
    returns (prefix: seq<Submission>, last: Submission)
    requires Drain(def, allows, current, flag, controller, items, fuel).outcome.Fail?
    ensures var d := Drain(def, allows, current, flag, controller, items, fuel);
            var before := Drain(def, allows, current, flag, controller, prefix, fuel);
            var run := Process(def, allows, before.current, before.flag, last.event, last.obj, controller, fuel);
            && d.processed == prefix + [last]
            && before.outcome.Pass?
            && run.outcome == d.outcome && run.current == d.current && run.inTransition == d.flag
    decreases |items|
  {
    DrainStep(def, allows, current, flag, controller, items, fuel);
    var run := Process(def, allows, current, flag, items[0].event, items[0].obj, controller, fuel);
    if run.outcome.Fail? {
      prefix, last := [], items[0];
    } else {
      var rest := Drain(def, allows, run.current, run.inTransition, controller, items[1..], fuel);
      var prefix', last' := FailingSubmission(def, allows, run.current, run.inTransition, controller, items[1..], fuel);
      prefix, last := [items[0]] + prefix', last';
      DrainCons(def, allows, current, flag, controller, items[0], prefix', fuel);
      AppendAssociative([items[0]], prefix', [last]);
    }
  }

  /** A drain whose head is processed normally continues from the head's new state with the rest. */
  lemma DrainCons(def: StateMachineDefinitionImpl, allows: bool, current: Option<string>, flag: bool,
                  controller: TransitionController, head: Submission, rest: seq<Submission>, fuel: nat)
    requires Process(def, allows, current, flag, head.event, head.obj, controller, fuel).outcome.Pass?
    ensures var run := Process(def, allows, current, flag, head.event, head.obj, controller, fuel);
            Drain(def, allows, current, flag, controller, [head] + rest, fuel)
            == After([head], Drain(def, allows, run.current, run.inTransition, controller, rest, fuel))
  {
    DrainStep(def, allows, current, flag, controller, [head] + rest, fuel);
    assert ([head] + rest)[0] == head && ([head] + rest)[1..] == rest;
  }

  class ReentrantStateMachine {
    const proxiedStateMachine: StateMachineImpl
    /** The controller every queued event is processed with. */
    const controller: TransitionController
    /** Set while some call is draining the queue. */
    var inTransition: bool
    var transitionQueue: seq<TransitionEvent>

    constructor (proxied: StateMachineImpl, controller: TransitionController)
      ensures proxiedStateMachine == proxied && this.controller == controller
      ensures !inTransition && transitionQueue == []
    {
      proxiedStateMachine := proxied;
      this.controller := controller;
      inTransition := false;
      transitionQueue := [];
    }

    /** This machine always accepts events submitted during a transition. */
    function AllowsReentrantTransitions(): (r: bool)
      ensures r
    {
      true
    }

    function GetCurrentState(): Option<string>
      reads proxiedStateMachine
    {
      proxiedStateMachine.GetCurrentState()
    }

    /**
     * `processEvent(event, object)`: an undeclared event is refused and
     * nothing is queued. Otherwise the event joins the tail of the queue; if
     * a drain is already running the call returns, else it drains the queue
     * and reports the first failure. The flag is back to what it was on
     * every return.
     */
    method ProcessEvent(event: string, obj: Payload, fuel: nat) returns (r: Outcome<Error>)
      modifies this, proxiedStateMachine, proxiedStateMachine.strategy
      ensures inTransition == old(inTransition)
      ensures !proxiedStateMachine.definition.IsEvent(event) ==>
                r == Fail(EventNotDefined) && transitionQueue == old(transitionQueue)
                && proxiedStateMachine.currentState == old(proxiedStateMachine.currentState)
                && proxiedStateMachine.strategy.inTransition == old(proxiedStateMachine.strategy.inTransition)
                && proxiedStateMachine.strategy.calls == old(proxiedStateMachine.strategy.calls)
      ensures proxiedStateMachine.definition.IsEvent(event) && old(inTransition) ==>
                r == Pass && Pending(transitionQueue) == old(Pending(transitionQueue)) + [Submission(event, obj)]
                && proxiedStateMachine.currentState == old(proxiedStateMachine.currentState)
                && proxiedStateMachine.strategy.inTransition == old(proxiedStateMachine.strategy.inTransition)
                && proxiedStateMachine.strategy.calls == old(proxiedStateMachine.strategy.calls)
      ensures proxiedStateMachine.definition.IsEvent(event) && !old(inTransition) ==>
                var d := old(Drain(proxiedStateMachine.definition, proxiedStateMachine.strategy.allowsReentrantTransitions,
                                   proxiedStateMachine.currentState, proxiedStateMachine.strategy.inTransition,
                                   controller, Pending(transitionQueue) + [Submission(event, obj)], fuel));
                r == d.outcome && Pending(transitionQueue) == d.remaining
                && proxiedStateMachine.currentState == d.current && proxiedStateMachine.strategy.inTransition == d.flag
    {
      if !proxiedStateMachine.GetDefinition().IsEvent(event) {
        return Fail(EventNotDefined);
      }
      var record := new TransitionEvent(None, event, None, obj);
      transitionQueue := transitionQueue + [record];
      assert Pending(transitionQueue) == old(Pending(transitionQueue)) + [Submission(event, obj)];
      if inTransition {
        return Pass;
      }
      inTransition := true;
      r := DrainQueue(fuel);
      inTransition := false;
    }

    /** The drain loop: head first, until the queue is empty or processing an event fails. */
    method DrainQueue(fuel: nat) returns (r: Outcome<Error>)
      requires transitionQueue != []
      modifies this, proxiedStateMachine, proxiedStateMachine.strategy
      ensures inTransition == old(inTransition)
      ensures var d := old(Drain(proxiedStateMachine.definition, proxiedStateMachine.strategy.allowsReentrantTransitions,
                                 proxiedStateMachine.currentState, proxiedStateMachine.strategy.inTransition,
                                 controller, Pending(transitionQueue), fuel));
              r == d.outcome && Pending(transitionQueue) == d.remaining
              && proxiedStateMachine.currentState == d.current && proxiedStateMachine.strategy.inTransition == d.flag
    {
      var def := proxiedStateMachine.definition;
      var strategy := proxiedStateMachine.strategy;
      ghost var total := Drain(def, strategy.allowsReentrantTransitions, proxiedStateMachine.currentState,
                               strategy.inTransition, controller, Pending(transitionQueue), fuel);
      ghost var doneItems: seq<Submission> := [];
      r := Pass;
      while r.Pass? && transitionQueue != []
        invariant inTransition == old(inTransition)
        invariant total == After(doneItems,
                                 Resume(def, strategy.allowsReentrantTransitions, r, proxiedStateMachine.currentState,
                                        strategy.inTransition, controller, Pending(transitionQueue), fuel))
        decreases |transitionQueue|
      {
        ghost var items := Pending(transitionQueue);
        DrainAdvance(def, strategy.allowsReentrantTransitions, proxiedStateMachine.currentState, strategy.inTransition,
                     controller, items, fuel, doneItems, total);
        r := ProcessHead(fuel);
        doneItems := doneItems + [items[0]];
      }
    }

    /** One turn of the drain loop: the head record is removed from the queue and its event processed. */
    method ProcessHead(fuel: nat) returns (r: Outcome<Error>)
      requires transitionQueue != []
      modifies this, proxiedStateMachine, proxiedStateMachine.strategy
      ensures inTransition == old(inTransition)
      ensures var head := old(Pending(transitionQueue))[0];
              var run := old(Process(proxiedStateMachine.definition, proxiedStateMachine.strategy.allowsReentrantTransitions,
                                     proxiedStateMachine.currentState, proxiedStateMachine.strategy.inTransition,
                                     head.event, head.obj, controller, fuel));
              r == run.outcome && Pending(transitionQueue) == old(Pending(transitionQueue))[1..]
              && proxiedStateMachine.currentState == run.current && proxiedStateMachine.strategy.inTransition == run.inTransition
    {
      var head := transitionQueue[0];
      transitionQueue := transitionQueue[1..];
      assert Pending(transitionQueue) == old(Pending(transitionQueue))[1..];
      r := proxiedStateMachine.ProcessEvent(head.GetEvent(), head.GetObject(), controller, fuel);
    }
  }
}
