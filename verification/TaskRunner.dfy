/**
  The code behind TaskStream's steps: runTask (internal/travel/service.go) as one straight run, and
  StreamPlan with replayHistory (internal/travel/handler.go) as the loops one request executes.
 */
module TaskRunner {
  import opened EventBus
  import opened TaskStream
  import D = EventDelivery
  import Bytes

  /** What follows the planner's own events. */
  function Outcome(result: PlannerResult, rest: seq<EventType>): seq<EventType> {
    if result == PlannerResult.Plan then rest + [Done] else [Error]
  }

  /** The status that stays in the store, given which updates succeed. */
  function FinalStatus(result: PlannerResult, end: Written, recover: Written): Status {
    match result
    case Plan => Stored(Running, Succeeded, end)
    case PlannerError => Stored(Running, Failed, end)
    case _ => Stored(Running, Failed, recover)
  }

  /** runTask with nobody listening: every store call and publication is a step the protocol allows. */
  class TaskRunner {
    var stored: Status
    var published: seq<EventType>
    ghost var machine: State

    ghost predicate Valid()
      reads this
    {
      && Inv(machine) && !machine.late
      && machine.bus.topic.subscribers == {} && !D.Busy(machine.bus)
      && stored == machine.store
      && |published| == |machine.bus.log|
      && forall i | 0 <= i < |published| :: published[i] == machine.bus.log[i].kind
    }

    /** The task as CreateTask leaves it when it starts runTask. */
    constructor ()
      ensures Valid() && machine.pc == Queued && published == [Progress]
    {
      StartInv();
      StepKeepsInv(START, Step.Publish(Progress, "task created"));
      stored, published := Pending, [Progress];
      machine := Apply(START, Step.Publish(Progress, "task created"));
    }

    method Publish(kind: EventType, message: string)
      requires Valid() && AfterPublish(machine.pc, kind).Some?
      modifies this
      ensures Valid()
      ensures machine == Apply(old(machine), Step.Publish(kind, message))
      ensures published == old(published) + [kind]
    {
      hide Inv;
      StepKeepsInv(machine, Step.Publish(kind, message));
      published := published + [kind];
      machine := Apply(machine, Step.Publish(kind, message));
    }

    method Update(status: Status, outcome: Written)
      requires Valid() && AfterUpdate(machine.pc, machine.store, outcome).Some?
      requires AfterUpdate(machine.pc, machine.store, outcome).value.1 == Stored(machine.store, status, outcome)
      modifies this
      ensures Valid()
      ensures machine == Apply(old(machine), UpdateStore(outcome))
      ensures stored == Stored(old(stored), status, outcome) && published == old(published)
    {
      hide Inv;
      StepKeepsInv(machine, UpdateStore(outcome));
      if outcome != Fails(false) {
        stored := status;
      }
      machine := Apply(machine, UpdateStore(outcome));
    }

    method Plan(result: PlannerResult)
      requires Valid() && (machine.pc == Calling || machine.pc == Planning)
      modifies this
      ensures Valid()
      ensures machine == Apply(old(machine), PlannerReturns(result))
      ensures stored == old(stored) && published == old(published)
    {
      hide Inv;
      StepKeepsInv(machine, PlannerReturns(result));
      machine := Apply(machine, PlannerReturns(result));
    }

    /**
      runTask: `reports` are the events the planner publishes while it works, `rest` the warnings and the
      summary, and the three outcomes are those of the store updates.
     */
    method RunTask(
        reports: seq<EventType>, result: PlannerResult, rest: seq<EventType>,
        start: Written, end: Written, recover: Written)
      requires Valid() && machine.pc == Queued && stored == Pending
      requires forall i | 0 <= i < |reports| :: !TerminalKind(reports[i])
      requires forall i | 0 <= i < |rest| :: !TerminalKind(rest[i])
      modifies this
      ensures Valid()
      ensures start.Fails? ==>
                machine.pc == Refused && stored == Stored(Pending, Running, start) && published == old(published)
      ensures start == Fine ==> machine.pc == Stopped && EndsOnce(machine.bus.log)
      ensures start == Fine ==> published == old(published) + [Progress] + reports + Outcome(result, rest)
      ensures start == Fine ==> stored == FinalStatus(result, end, recover)
    {
      hide Inv;
      Update(Running, start);
      if start.Fails? {
        return;
      }
      Publish(Progress, "planner started");
      PublishAll(reports);
      Plan(result);
      Conclude(result, rest, end, recover);
      Bytes.Assoc(old(published) + [Progress], reports, Outcome(result, rest));
    }

    /** What runTask and its recover function do once the planner has returned or panicked. */
    method Conclude(result: PlannerResult, rest: seq<EventType>, end: Written, recover: Written)
      requires Valid() && stored == Running
      requires machine.pc == AfterPlanner(result)
      requires forall i | 0 <= i < |rest| :: !TerminalKind(rest[i])
      modifies this
      ensures Valid() && machine.pc == Stopped && EndsOnce(machine.bus.log)
      ensures published == old(published) + Outcome(result, rest)
      ensures stored == FinalStatus(result, end, recover)
    {
      hide Inv, EndsOnce;
      match result {
        case Plan =>
          PublishAll(rest);
          Publish(Done, "planner finished");
          Update(Succeeded, end);
        case PlannerError =>
          Publish(Error, "planner error");
          Update(Failed, end);
        case _ => Recover(recover);
      }
      Ends();
    }

    /** The deferred recover function: the store first, then the event. */
    method Recover(recover: Written)
      requires Valid() && stored == Running && machine.pc == Recovering
      modifies this
      ensures Valid() && machine.pc == Stopped
      ensures published == old(published) + [Error] && stored == Stored(Running, Failed, recover)
    {
      hide Inv;
      Update(Failed, recover);
      Publish(Error, "panic");
    }

    method PublishAll(kinds: seq<EventType>)
      requires Valid() && (machine.pc == Calling || machine.pc == Planning || machine.pc == Finishing)
      requires forall i | 0 <= i < |kinds| :: !TerminalKind(kinds[i])
      modifies this
      ensures Valid() && stored == old(stored)
      ensures if old(machine).pc == Finishing then machine.pc == Finishing
              else machine.pc == Calling || machine.pc == Planning
      ensures published == old(published) + kinds
    {
      hide Inv;
      var k := 0;
      while k < |kinds|
        invariant 0 <= k <= |kinds|
        invariant Valid() && stored == old(stored)
        invariant if old(machine).pc == Finishing then machine.pc == Finishing
                  else machine.pc == Calling || machine.pc == Planning
        invariant published == old(published) + kinds[..k]
      {
        Publish(kinds[k], "");
        k := k + 1;
      }
    }

    lemma Ends()
      requires Valid() && machine.pc == Stopped
      ensures EndsOnce(machine.bus.log)
    {
    }
  }

  /** replayHistory: writes the history, and says whether it contained a terminal event. */
  method ReplayHistory(history: seq<TaskEvent>) returns (written: seq<TaskEvent>, terminal: bool)
    ensures written == history
    ensures terminal <==> exists i | 0 <= i < |history| :: IsTerminal(history[i])
  {
    written, terminal := [], false;
    var k := 0;
    while k < |history|
      invariant 0 <= k <= |history|
      invariant written == history[..k]
      invariant terminal <==> exists i | 0 <= i < k :: IsTerminal(history[i])
    {
      written := written + [history[k]];
      if history[k].kind.Done? || history[k].kind.Error? {
        terminal := true;
      }
      k := k + 1;
    }
  }

  /**
    StreamPlan after the status lookup. `incoming` is what the channel would deliver and `patience`
    how many events arrive before the client goes away.
   */
  method StreamPlan(status: Status, history: seq<TaskEvent>, incoming: seq<TaskEvent>, patience: nat)
    returns (written: seq<TaskEvent>, complete: bool)
    ensures Finished(status) ==> complete && written == Replay(history, status)
    ensures !Finished(status) ==> written <= incoming
    ensures !Finished(status) && complete ==> EndsOnce(written)
    ensures !Finished(status) && !complete ==>
              NoneTerminal(written) && |written| == (if patience < |incoming| then patience else |incoming|)
  {
    complete := true;
    if status == Succeeded || status == Failed {
      var terminal;
      written, terminal := ReplayHistory(history);
      if !terminal {
        written := written + [Synthesized(status)];
      }
      assert history + [] == history;
      return;
    }
    written := [];
    var k := 0;
    while k < |incoming|
      invariant 0 <= k <= |incoming| && k <= patience
      invariant written == incoming[..k] && NoneTerminal(written)
    {
      if k == patience {
        return written, false;
      }
      var event := incoming[k];
      written := written + [event];
      k := k + 1;
      if event.kind.Done? || event.kind.Error? {
        assert EndsOnce(written);
        return written, true;
      }
    }
    return written, false;
  }
}
