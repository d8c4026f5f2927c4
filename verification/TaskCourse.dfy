/**
  The courses a task can take, from its creation to its end, written out as what its code does in order:
  events published, store updates, the planner's return, and panics in a publication.
 */
module TaskCourse {
  import opened EventBus
  import opened TaskStream
  import D = EventDelivery
  import Bytes
  import opened Wrappers

  datatype Act =
    | Says(kind: EventType)
    | Writes(outcome: Written)
    | Planned(result: PlannerResult)
    | Panics(plannerRecovers: bool)

  function ActOf(step: Step): seq<Act> {
    match step
    case Publish(kind, _) => [Says(kind)]
    case UpdateStore(outcome) => [Writes(outcome)]
    case PlannerReturns(result) => [Planned(result)]
    case SendToClosed(_, plannerRecovers) => [Panics(plannerRecovers)]
    case _ => []
  }

  /** What the code of the task does in a run, whatever readers do in between. */
  function Acts(steps: seq<Step>): seq<Act> {
    if steps == [] then [] else ActOf(steps[0]) + Acts(steps[1..])
  }

  function Said(acts: seq<Act>): seq<EventType> {
    if acts == [] then [] else (if acts[0].Says? then [acts[0].kind] else []) + Said(acts[1..])
  }

  function AllSaid(kinds: seq<EventType>): seq<Act> {
    if kinds == [] then [] else AllSaid(kinds[..|kinds| - 1]) + [Says(kinds[|kinds| - 1])]
  }

  /** Neither done nor error. */
  predicate Quiet(kinds: seq<EventType>) {
    forall i | 0 <= i < |kinds| :: !kinds[i].Done? && !kinds[i].Error?
  }

  // ---------------------------------------------------------------- the courses

  /** Why the deferred recover function runs; `recovers` is what the planner would have done with the panic. */
  datatype Cause =
    | Unheard(reports: seq<EventType>, recovers: bool)
    | Returned(reports: seq<EventType>, result: PlannerResult)
    | UnheardSummary(reports: seq<EventType>, rest: seq<EventType>, recovers: bool)
    | UnheardDone(reports: seq<EventType>, rest: seq<EventType>, recovers: bool)
    | UnheardError(reports: seq<EventType>, inReport: bool, recovers: bool)

  datatype Course =
    | Unborn
    | Waiting
    | Orphan(recovers: bool)
    | Refusal(kept: bool)
    | Begun
    | Works(reports: seq<EventType>)
    | Sums(reports: seq<EventType>, rest: seq<EventType>)
    | Errs(reports: seq<EventType>, inReport: bool)
    | SaysDone(reports: seq<EventType>, rest: seq<EventType>)
    | SaysError(reports: seq<EventType>, inReport: bool)
    | Succeeds(reports: seq<EventType>, rest: seq<EventType>, end: Written)
    | GivesUp(reports: seq<EventType>, inReport: bool, end: Written)
    | Recovers(cause: Cause)
    | Records(cause: Cause, recover: Written)
    | Reports(cause: Cause, recover: Written)
    | Crashes(cause: Cause, recover: Written, recovers: bool)

  /** A planner at work: created, stored as running, announced, and these reports. */
  function AtWork(reports: seq<EventType>): seq<Act> {
    [Says(Progress), Writes(Fine), Says(Progress)] + AllSaid(reports)
  }

  /** The planner returned a plan; warnings and summary follow. */
  function Summing(reports: seq<EventType>, rest: seq<EventType>): seq<Act> {
    AtWork(reports) + [Planned(PlannerResult.Plan)] + AllSaid(rest)
  }

  /** The planner returned an error, or made one of a panic in its last report. */
  function Erring(reports: seq<EventType>, inReport: bool): seq<Act> {
    AtWork(reports) + [if inReport then Panics(true) else Planned(PlannerError)]
  }

  function CauseTold(cause: Cause): seq<Act> {
    match cause
    case Unheard(reports, recovers) => AtWork(reports) + [Panics(recovers)]
    case Returned(reports, result) => AtWork(reports) + [Planned(result)]
    case UnheardSummary(reports, rest, recovers) => Summing(reports, rest) + [Panics(recovers)]
    case UnheardDone(reports, rest, recovers) => Summing(reports, rest) + [Says(Done)] + [Panics(recovers)]
    case UnheardError(reports, inReport, recovers) => Erring(reports, inReport) + [Says(Error)] + [Panics(recovers)]
  }

  function Told(course: Course): seq<Act> {
    match course
    case Unborn => []
    case Waiting => [Says(Progress)]
    case Orphan(recovers) => [Says(Progress), Panics(recovers)]
    case Refusal(kept) => [Says(Progress), Writes(Fails(kept))]
    case Begun => [Says(Progress), Writes(Fine)]
    case Works(reports) => AtWork(reports)
    case Sums(reports, rest) => Summing(reports, rest)
    case Errs(reports, inReport) => Erring(reports, inReport)
    case SaysDone(reports, rest) => Summing(reports, rest) + [Says(Done)]
    case SaysError(reports, inReport) => Erring(reports, inReport) + [Says(Error)]
    case Succeeds(reports, rest, end) => Summing(reports, rest) + [Says(Done)] + [Writes(end)]
    case GivesUp(reports, inReport, end) => Erring(reports, inReport) + [Says(Error)] + [Writes(end)]
    case Recovers(cause) => CauseTold(cause)
    case Records(cause, recover) => CauseTold(cause) + [Writes(recover)]
    case Reports(cause, recover) => CauseTold(cause) + [Writes(recover)] + [Says(Error)]
    case Crashes(cause, recover, recovers) => CauseTold(cause) + [Writes(recover)] + [Says(Error)] + [Panics(recovers)]
  }

  predicate ProperErr(reports: seq<EventType>, inReport: bool) {
    Quiet(reports) && (inReport ==> reports != [])
  }

  predicate ProperCause(cause: Cause) {
    match cause
    case Unheard(reports, recovers) => Quiet(reports) && (recovers ==> reports == [])
    case Returned(reports, result) => Quiet(reports) && (result == NilPlan || result == PlannerPanic)
    case UnheardSummary(reports, rest, _) => Quiet(reports) && Quiet(rest) && rest != []
    case UnheardDone(reports, rest, _) => Quiet(reports) && Quiet(rest)
    case UnheardError(reports, inReport, _) => ProperErr(reports, inReport)
  }

  predicate Proper(course: Course) {
    match course
    case Works(reports) => Quiet(reports)
    case Sums(reports, rest) => Quiet(reports) && Quiet(rest)
    case Errs(reports, inReport) => ProperErr(reports, inReport)
    case SaysDone(reports, rest) => Quiet(reports) && Quiet(rest)
    case SaysError(reports, inReport) => ProperErr(reports, inReport)
    case Succeeds(reports, rest, _) => Quiet(reports) && Quiet(rest)
    case GivesUp(reports, inReport, _) => ProperErr(reports, inReport)
    case Recovers(cause) => ProperCause(cause)
    case Records(cause, _) => ProperCause(cause)
    case Reports(cause, _) => ProperCause(cause)
    case Crashes(cause, _, _) => ProperCause(cause)
    case _ => true
  }

  /** The status is stored unless the update failed without a trace. */
  function Put(before: Status, status: Status, outcome: Written): Status {
    if outcome.Fails? && !outcome.kept then before else status
  }

  /** The status in the store. */
  function StoreOf(course: Course): Status {
    match course
    case Unborn => Pending
    case Waiting => Pending
    case Orphan(_) => Pending
    case Refusal(kept) => if kept then Running else Pending
    case Succeeds(_, _, end) => Put(Running, Succeeded, end)
    case GivesUp(_, _, end) => Put(Running, Failed, end)
    case Records(_, recover) => Put(Running, Failed, recover)
    case Reports(_, recover) => Put(Running, Failed, recover)
    case Crashes(_, recover, _) => Put(Running, Failed, recover)
    case _ => Running
  }

  /** How far the code has come. */
  function PcOf(course: Course): Pc {
    match course
    case Unborn => Created
    case Waiting => Queued
    case Orphan(_) => Orphaned
    case Refusal(_) => Refused
    case Begun => Started
    case Works(reports) => if reports == [] then Calling else Planning
    case Sums(_, _) => Finishing
    case Errs(_, _) => Erred
    case SaysDone(_, _) => Ending(Succeeded)
    case SaysError(_, _) => Ending(Failed)
    case Succeeds(_, _, _) => Stopped
    case GivesUp(_, _, _) => Stopped
    case Recovers(_) => Recovering
    case Records(_, _) => Reporting
    case Reports(_, _) => Stopped
    case Crashes(_, _, _) => Crashed
  }

  // ---------------------------------------------------------------- every run takes one of them

  /** The run is at this point of this course; a send can be under way only of the last event. */
  ghost predicate At(s: State, course: Course) {
    && Proper(course) && s.pc == PcOf(course) && s.store == StoreOf(course)
    && (D.Busy(s.bus) ==>
          || course.Waiting? || course.Works? || (course.Sums? && course.rest != []) || course.SaysDone?
          || course.SaysError? || course.Reports?)
  }

  lemma SaidOne(kinds: seq<EventType>, kind: EventType)
    ensures AllSaid(kinds + [kind]) == AllSaid(kinds) + [Says(kind)]
    ensures Quiet(kinds) && !kind.Done? && !kind.Error? ==> Quiet(kinds + [kind])
  {
    assert (kinds + [kind])[..|kinds|] == kinds;
  }

  lemma PublishExtends(s: State, step: Step, course: Course) returns (course': Course)
    requires At(s, course) && Enabled(s, step) && step.Publish?
    ensures At(Apply(s, step), course') && Told(course') == Told(course) + [Says(step.kind)]
  {
    hide D.Apply, D.Enabled, AllSaid;
    match course
    case Unborn => course' := Waiting;
    case Begun =>
      course' := Works([]);
      NoneSaid();
    case Works(reports) =>
      SaidOne(reports, step.kind);
      course' := Works(reports + [step.kind]);
    case Sums(reports, rest) =>
      if step.kind.Done? {
        course' := SaysDone(reports, rest);
      } else {
        SaidOne(rest, step.kind);
        course' := Sums(reports, rest + [step.kind]);
      }
    case Errs(reports, inReport) => course' := SaysError(reports, inReport);
    case Records(cause, recover) => course' := Reports(cause, recover);
    case _ =>
  }

  lemma NoneSaid()
    ensures AllSaid([]) == []
  {
  }

  lemma UpdateExtends(s: State, step: Step, course: Course) returns (course': Course)
    requires At(s, course) && Enabled(s, step) && step.UpdateStore?
    ensures At(Apply(s, step), course') && Told(course') == Told(course) + [Writes(step.outcome)]
  {
    match course
    case Waiting => course' := if step.outcome == Fine then Begun else Refusal(step.outcome.kept);
    case SaysDone(reports, rest) => course' := Succeeds(reports, rest, step.outcome);
    case SaysError(reports, inReport) => course' := GivesUp(reports, inReport, step.outcome);
    case Recovers(cause) => course' := Records(cause, step.outcome);
    case _ =>
  }

  lemma ReturnExtends(s: State, step: Step, course: Course) returns (course': Course)
    requires At(s, course) && Enabled(s, step) && step.PlannerReturns?
    ensures At(Apply(s, step), course') && Told(course') == Told(course) + [Planned(step.result)]
  {
    hide AllSaid;
    NoneSaid();
    var reports := course.reports;
    match step.result
    case Plan =>
      course' := Sums(reports, []);
      assert Told(course') == Told(course) + [Planned(step.result)] + [];
    case PlannerError => course' := Errs(reports, false);
    case _ => course' := Recovers(Returned(reports, step.result));
  }

  lemma PanicIsOfASend(s: State, step: Step)
    requires Enabled(s, step) && step.SendToClosed?
    ensures D.Busy(s.bus) && !D.Busy(Apply(s, step).bus)
  {
  }

  /** The course after a panic in the send of its last event. */
  function AfterPanicIn(course: Course, recovers: bool): Course {
    match course
    case Waiting => Orphan(recovers)
    case Works(reports) =>
      if recovers && reports != [] then Errs(reports, true) else Recovers(Unheard(reports, recovers))
    case Sums(reports, rest) => Recovers(UnheardSummary(reports, rest, recovers))
    case SaysDone(reports, rest) => Recovers(UnheardDone(reports, rest, recovers))
    case SaysError(reports, inReport) => Recovers(UnheardError(reports, inReport, recovers))
    case Reports(cause, recover) => Crashes(cause, recover, recovers)
    case _ => course
  }

  lemma PanicTold(course: Course, recovers: bool)
    requires AfterPanicIn(course, recovers) != course
    ensures Told(AfterPanicIn(course, recovers)) == Told(course) + [Panics(recovers)]
  {
    hide AtWork, Summing, CauseTold;
    if course.Works? || course.Sums? || course.SaysDone? || course.SaysError? {
      CauseIs(course, recovers);
    }
  }

  lemma CauseIs(course: Course, recovers: bool)
    requires course.Works? || course.Sums? || course.SaysDone? || course.SaysError?
    ensures var next := AfterPanicIn(course, recovers);
            Told(next) == Told(course) + [Panics(recovers)]
  {
    hide AllSaid;
  }

  lemma PanicExtends(s: State, step: Step, course: Course) returns (course': Course)
    requires At(s, course) && Enabled(s, step) && step.SendToClosed?
    ensures At(Apply(s, step), course') && Told(course') == Told(course) + [Panics(step.plannerRecovers)]
  {
    PanicIsOfASend(s, step);
    hide D.Busy, D.Apply, D.Enabled, Told;
    course' := AfterPanicIn(course, step.plannerRecovers);
    PanicTold(course, step.plannerRecovers);
  }

  lemma OthersDoNotMatter(s: State, step: Step, course: Course)
    requires At(s, course) && Enabled(s, step)
    requires !step.Publish? && !step.UpdateStore? && !step.PlannerReturns? && !step.SendToClosed?
    ensures At(Apply(s, step), course)
  {
    hide Proper;
  }

  lemma {:induction false} StepExtends(s: State, step: Step, course: Course) returns (course': Course)
    requires At(s, course) && Enabled(s, step)
    ensures At(Apply(s, step), course') && Told(course') == Told(course) + ActOf(step)
  {
    hide At, Told, Enabled, Apply;
    match step
    case Publish(_, _) => course' := PublishExtends(s, step, course);
    case UpdateStore(_) => course' := UpdateExtends(s, step, course);
    case PlannerReturns(_) => course' := ReturnExtends(s, step, course);
    case SendToClosed(_, _) => course' := PanicExtends(s, step, course);
    case _ =>
      OthersDoNotMatter(s, step, course);
      course' := course;
      assert Told(course) + [] == Told(course);
  }

  lemma {:induction false} RunExtends(s: State, steps: seq<Step>, course: Course) returns (course': Course)
    requires At(s, course) && Possible(s, steps)
    ensures At(After(s, steps), course') && Told(course') == Told(course) + Acts(steps)
    decreases |steps|
  {
    hide At, Told, Enabled, Apply, ActOf;
    if steps == [] {
      course' := course;
      assert Told(course) + [] == Told(course);
    } else {
      var next := StepExtends(s, steps[0], course);
      course' := RunExtends(Apply(s, steps[0]), steps[1..], next);
      assert Told(course) + ActOf(steps[0]) + Acts(steps[1..]) == Told(course) + Acts(steps);
    }
  }

  function Kinds(log: seq<TaskEvent>): seq<EventType> {
    seq(|log|, i requires 0 <= i < |log| => log[i].kind)
  }

  lemma StepLogs(s: State, step: Step)
    requires Enabled(s, step)
    ensures Kinds(Apply(s, step).bus.log) == Kinds(s.bus.log) + Said(ActOf(step))
  {
  }

  lemma {:induction false} SaidTogether(a: seq<Act>, b: seq<Act>)
    ensures Said(a + b) == Said(a) + Said(b)
  {
    if a == [] {
      assert a + b == b;
    } else {
      SaidTogether(a[1..], b);
      assert (a + b)[1..] == a[1..] + b;
      Bytes.Assoc(if a[0].Says? then [a[0].kind] else [], Said(a[1..]), Said(b));
    }
  }

  lemma {:induction false} RunLogs(s: State, steps: seq<Step>)
    requires Possible(s, steps)
    ensures Kinds(After(s, steps).bus.log) == Kinds(s.bus.log) + Said(Acts(steps))
    decreases |steps|
  {
    hide Enabled, Apply, ActOf, Kinds;
    if steps == [] {
      assert Kinds(s.bus.log) + [] == Kinds(s.bus.log);
    } else {
      StepLogs(s, steps[0]);
      RunLogs(Apply(s, steps[0]), steps[1..]);
      SaidTogether(ActOf(steps[0]), Acts(steps[1..]));
    }
  }

  /**
    On every run: what the code does is one of the courses of this file up to some point, with the status
    stored that the course says, and the events published are those it says, in its order.
   */
  lemma EveryRunIsACourse(steps: seq<Step>) returns (course: Course)
    requires Possible(START, steps)
    ensures Proper(course) && Told(course) == Acts(steps)
    ensures var s := After(START, steps);
            s.pc == PcOf(course) && s.store == StoreOf(course) && Kinds(s.bus.log) == Said(Told(course))
  {
    assert At(START, Unborn);
    course := RunExtends(START, steps, Unborn);
    RunLogs(START, steps);
    assert Told(Unborn) + Acts(steps) == Acts(steps);
    assert Kinds(START.bus.log) + Said(Acts(steps)) == Said(Acts(steps));
  }

  // ---------------------------------------------------------------- when a task succeeds

  predicate NoPanic(acts: seq<Act>) {
    forall a | a in acts :: !a.Panics?
  }

  lemma {:induction false} OnlySaid(kinds: seq<EventType>)
    ensures forall a | a in AllSaid(kinds) :: a.Says?
  {
    if kinds != [] {
      OnlySaid(kinds[..|kinds| - 1]);
    }
  }

  /**
    On every run that stops: the task is stored as succeeded if and only if the planner returned a plan,
    no publication panicked, and the last update was made.
   */
  lemma SucceedsIff(steps: seq<Step>)
    requires Possible(START, steps) && After(START, steps).pc == Stopped
    ensures var acts := Acts(steps);
            acts != [] &&
            (After(START, steps).store == Succeeded <==>
               Planned(PlannerResult.Plan) in acts && NoPanic(acts) && acts[|acts| - 1] != Writes(Fails(false)))
  {
    var course := EveryRunIsACourse(steps);
    hide Possible, After, Acts;
    match course
    case Succeeds(reports, rest, end) => SucceedsAs(reports, rest, end);
    case GivesUp(reports, inReport, end) => FailsAs(reports, inReport, end);
    case Reports(cause, recover) => RecoversAs(cause, recover);
    case _ =>
  }

  lemma SucceedsAs(reports: seq<EventType>, rest: seq<EventType>, end: Written)
    ensures var acts := Told(Succeeds(reports, rest, end));
            && acts != [] && acts[|acts| - 1] == Writes(end)
            && Planned(PlannerResult.Plan) in acts && NoPanic(acts)
  {
    OnlySaid(reports);
    OnlySaid(rest);
    var acts := Told(Succeeds(reports, rest, end));
    assert acts[|AtWork(reports)|] == Planned(PlannerResult.Plan);
    hide AllSaid;
  }

  lemma FailsAs(reports: seq<EventType>, inReport: bool, end: Written)
    ensures var acts := Told(GivesUp(reports, inReport, end)); acts != [] && Planned(PlannerResult.Plan) !in acts
  {
    OnlySaid(reports);
    hide AllSaid;
  }

  lemma RecoversAs(cause: Cause, recover: Written)
    requires ProperCause(cause)
    ensures var acts := Told(Reports(cause, recover));
            acts != [] && (Planned(PlannerResult.Plan) in acts ==> !NoPanic(acts))
  {
    var acts := Told(Reports(cause, recover));
    var told := CauseTold(cause);
    assert acts[|told| - 1] == told[|told| - 1];
    if cause.Returned? {
      OnlySaid(cause.reports);
      hide AllSaid;
    } else {
      assert told[|told| - 1].Panics?;
      assert acts[|told| - 1] in acts;
    }
  }

  // ---------------------------------------------------------------- every course can be taken

  /** Three readers have asked for the task when it was new; those in `used` have come and gone, nobody listens. */
  ghost predicate Ready(s: State, used: set<ChanId>) {
    && used <= {1, 2, 3} && !D.Busy(s.bus)
    && s.bus.topic.subscribers == {} && s.bus.inboxes.Keys == used
    && s.readers.Keys == {1, 2, 3}
    && (forall r | r in s.readers && r !in used :: s.readers[r] == Asked(Pending))
  }

  lemma {:induction false} ActsTogether(a: seq<Step>, b: seq<Step>)
    ensures Acts(a + b) == Acts(a) + Acts(b)
  {
    hide ActOf;
    if a == [] {
      assert a + b == b;
    } else {
      ActsTogether(a[1..], b);
      assert (a + b)[1..] == a[1..] + b;
      Bytes.Assoc(ActOf(a[0]), Acts(a[1..]), Acts(b));
    }
  }

  /** One step more at the end of a run. */
  lemma Next(steps: seq<Step>, step: Step) returns (more: seq<Step>)
    requires Possible(START, steps) && Enabled(After(START, steps), step)
    ensures Possible(START, more) && After(START, more) == Apply(After(START, steps), step)
    ensures Acts(more) == Acts(steps) + ActOf(step)
  {
    hide Apply, Enabled, ActOf;
    more := steps + [step];
    RunsCompose(START, steps, [step]);
    ActsTogether(steps, [step]);
    assert [step][1..] == [] && Acts([step]) == ActOf(step) + Acts([]) == ActOf(step);
  }

  lemma ReadersAsk() returns (steps: seq<Step>)
    ensures Possible(START, steps) && Acts(steps) == [] && Ready(After(START, steps), {})
    ensures After(START, steps).pc == Created && After(START, steps).store == Pending
  {
    hide Possible, After;
    NoSteps();
    steps := Next([], AskStatus(1));
    steps := Next(steps, AskStatus(2));
    steps := Next(steps, AskStatus(3));
  }

  /** An event that nobody listens to. */
  lemma Say(steps: seq<Step>, used: set<ChanId>, kind: EventType) returns (more: seq<Step>)
    requires Possible(START, steps) && Ready(After(START, steps), used)
    requires AfterPublish(After(START, steps).pc, kind).Some?
    ensures Possible(START, more) && Ready(After(START, more), used) && Acts(more) == Acts(steps) + [Says(kind)]
    ensures After(START, more).pc == AfterPublish(After(START, steps).pc, kind).value
    ensures After(START, more).store == After(START, steps).store
  {
    hide Possible, After, AfterPublish;
    more := Next(steps, Publish(kind, ""));
  }

  /** Reader r listens and is the only one; `sent` tells whether an event is on its way to it. */
  ghost predicate Listens(s: State, used: set<ChanId>, r: ChanId, sent: bool) {
    && used <= {1, 2, 3} && r in {1, 2, 3} - used
    && s.bus.topic.subscribers == {r} && s.bus.inboxes.Keys == used + {r} && !s.bus.inboxes[r].channel.closed
    && (if sent then s.bus.sending.Some? && s.bus.sending.value.todo == {r} else !D.Busy(s.bus))
    && s.readers.Keys == {1, 2, 3} && s.readers[r] == Streaming
    && (forall q | q in s.readers && q !in used && q != r :: s.readers[q] == Asked(Pending))
  }

  lemma Listen(steps: seq<Step>, used: set<ChanId>, r: ChanId) returns (more: seq<Step>)
    requires Possible(START, steps) && Ready(After(START, steps), used) && r in {1, 2, 3} - used
    ensures Possible(START, more) && Listens(After(START, more), used, r, false) && Acts(more) == Acts(steps)
    ensures After(START, more).pc == After(START, steps).pc && After(START, more).store == After(START, steps).store
  {
    hide Possible, After;
    more := Next(steps, Join(r));
    assert Acts(steps) + [] == Acts(steps);
  }

  lemma SayTo(steps: seq<Step>, used: set<ChanId>, r: ChanId, kind: EventType) returns (more: seq<Step>)
    requires Possible(START, steps) && Listens(After(START, steps), used, r, false)
    requires AfterPublish(After(START, steps).pc, kind).Some?
    ensures Possible(START, more) && Listens(After(START, more), used, r, true)
    ensures Acts(more) == Acts(steps) + [Says(kind)]
    ensures After(START, more).pc == AfterPublish(After(START, steps).pc, kind).value
    ensures After(START, more).store == After(START, steps).store
  {
    hide Possible, After, AfterPublish;
    more := Next(steps, Publish(kind, ""));
  }

  /** Reader r has left, and the event on its way to it has not been sent. */
  ghost predicate HasLeftBefore(s: State, used: set<ChanId>, r: ChanId) {
    && used <= {1, 2, 3} && r in {1, 2, 3} - used
    && s.bus.topic.subscribers == {} && s.bus.inboxes.Keys == used + {r} && s.bus.inboxes[r].channel.closed
    && s.bus.sending.Some? && s.bus.sending.value.todo == {r}
    && s.readers.Keys == {1, 2, 3}
    && (forall q | q in s.readers && q !in used && q != r :: s.readers[q] == Asked(Pending))
  }

  lemma Leave(steps: seq<Step>, used: set<ChanId>, r: ChanId) returns (more: seq<Step>)
    requires Possible(START, steps) && Listens(After(START, steps), used, r, true)
    ensures Possible(START, more) && HasLeftBefore(After(START, more), used, r) && Acts(more) == Acts(steps)
    ensures After(START, more).pc == After(START, steps).pc && After(START, more).store == After(START, steps).store
  {
    hide Possible, After;
    more := Next(steps, GoAway(r));
    more := Next(more, Close(r));
    assert Acts(steps) + [] + [] == Acts(steps);
  }

  lemma SendAndPanic(steps: seq<Step>, used: set<ChanId>, r: ChanId, recovers: bool) returns (more: seq<Step>)
    requires Possible(START, steps) && HasLeftBefore(After(START, steps), used, r)
    ensures Possible(START, more) && Ready(After(START, more), used + {r})
    ensures Acts(more) == Acts(steps) + [Panics(recovers)]
    ensures After(START, more).pc == AfterPanic(After(START, steps).pc, recovers)
    ensures After(START, more).store == After(START, steps).store
  {
    hide Possible, After, AfterPanic;
    more := Next(steps, SendToClosed(r, recovers));
  }

  /** An event that a reader listens to, who leaves between its snapshot and its send. */
  lemma SayAndPanic(steps: seq<Step>, used: set<ChanId>, r: ChanId, kind: EventType, recovers: bool)
    returns (more: seq<Step>)
    requires Possible(START, steps) && Ready(After(START, steps), used) && r in {1, 2, 3} - used
    requires AfterPublish(After(START, steps).pc, kind).Some?
    ensures Possible(START, more) && Ready(After(START, more), used + {r})
    ensures Acts(more) == Acts(steps) + [Says(kind)] + [Panics(recovers)]
    ensures After(START, more).pc == AfterPanic(AfterPublish(After(START, steps).pc, kind).value, recovers)
    ensures After(START, more).store == After(START, steps).store
  {
    hide Possible, After, AfterPublish, AfterPanic, Ready, Listens, HasLeftBefore;
    more := Listen(steps, used, r);
    more := SayTo(more, used, r, kind);
    more := Leave(more, used, r);
    more := SendAndPanic(more, used, r, recovers);
  }

  lemma Write(steps: seq<Step>, used: set<ChanId>, outcome: Written) returns (more: seq<Step>)
    requires Possible(START, steps) && Ready(After(START, steps), used)
    requires AfterUpdate(After(START, steps).pc, After(START, steps).store, outcome).Some?
    ensures Possible(START, more) && Ready(After(START, more), used) && Acts(more) == Acts(steps) + [Writes(outcome)]
    ensures (After(START, more).pc, After(START, more).store) ==
              AfterUpdate(After(START, steps).pc, After(START, steps).store, outcome).value
  {
    hide Possible, After, AfterUpdate;
    more := Next(steps, UpdateStore(outcome));
  }

  lemma Return(steps: seq<Step>, used: set<ChanId>, result: PlannerResult) returns (more: seq<Step>)
    requires Possible(START, steps) && Ready(After(START, steps), used)
    requires After(START, steps).pc == Calling || After(START, steps).pc == Planning
    ensures Possible(START, more) && Ready(After(START, more), used) && Acts(more) == Acts(steps) + [Planned(result)]
    ensures After(START, more).pc == AfterPlanner(result) && After(START, more).store == After(START, steps).store
  {
    hide Possible, After, AfterPlanner;
    more := Next(steps, PlannerReturns(result));
  }

  /** A run that has come to the end of this course, with these readers used up on the way. */
  ghost predicate Arrives(steps: seq<Step>, course: Course, used: set<ChanId>) {
    && Possible(START, steps) && Acts(steps) == Told(course)
    && Ready(After(START, steps), used)
    && After(START, steps).pc == PcOf(course) && After(START, steps).store == StoreOf(course)
  }

  lemma {:induction false} BegunHappens() returns (steps: seq<Step>)
    ensures Arrives(steps, Begun, {})
  {
    hide Possible, After, Ready;
    steps := ReadersAsk();
    steps := Say(steps, {}, Progress);
    steps := Write(steps, {}, Fine);
    assert [] + [Says(Progress)] + [Writes(Fine)] == Told(Begun);
  }

  lemma {:induction false} WorksHappens(reports: seq<EventType>) returns (steps: seq<Step>)
    requires Quiet(reports)
    ensures Arrives(steps, Works(reports), {})
    decreases |reports|
  {
    hide Possible, After, Ready, AllSaid;
    if reports == [] {
      steps := BegunHappens();
      steps := Say(steps, {}, Progress);
      NoneSaid();
      assert AtWork([]) == [Says(Progress), Writes(Fine)] + [Says(Progress)];
    } else {
      var n := |reports| - 1;
      steps := WorksHappens(reports[..n]);
      steps := Say(steps, {}, reports[n]);
      assert reports == reports[..n] + [reports[n]];
      SaidOne(reports[..n], reports[n]);
      assert AtWork(reports) == AtWork(reports[..n]) + [Says(reports[n])];
    }
  }

  lemma {:induction false} SumsHappens(reports: seq<EventType>, rest: seq<EventType>) returns (steps: seq<Step>)
    requires Quiet(reports) && Quiet(rest)
    ensures Arrives(steps, Sums(reports, rest), {})
    decreases |rest|
  {
    hide Possible, After, Ready, AllSaid;
    if rest == [] {
      steps := WorksHappens(reports);
      steps := Return(steps, {}, PlannerResult.Plan);
      NoneSaid();
      assert Summing(reports, []) == AtWork(reports) + [Planned(PlannerResult.Plan)] + [];
    } else {
      var n := |rest| - 1;
      steps := SumsHappens(reports, rest[..n]);
      steps := Say(steps, {}, rest[n]);
      assert rest == rest[..n] + [rest[n]];
      SaidOne(rest[..n], rest[n]);
    }
  }

  /** One event more, which panics: the course goes on as AfterPanicIn says. */
  lemma PanicsNext(steps: seq<Step>, before: Course, used: set<ChanId>, r: ChanId, kind: EventType, recovers: bool,
                   said: Course) returns (more: seq<Step>)
    requires Arrives(steps, before, used) && r in {1, 2, 3} - used
    requires AfterPublish(PcOf(before), kind) == Some(PcOf(said)) && StoreOf(said) == StoreOf(before)
    requires Told(said) == Told(before) + [Says(kind)] && AfterPanicIn(said, recovers) != said
    requires Proper(said)
    ensures Arrives(more, AfterPanicIn(said, recovers), used + {r})
  {
    hide Possible, After, Ready, Told, AfterPublish;
    more := SayAndPanic(steps, used, r, kind, recovers);
    PanicTold(said, recovers);
    PanicLeads(said, recovers);
  }

  lemma PanicLeads(said: Course, recovers: bool)
    requires AfterPanicIn(said, recovers) != said && Proper(said)
    ensures PcOf(AfterPanicIn(said, recovers)) == AfterPanic(PcOf(said), recovers)
    ensures StoreOf(AfterPanicIn(said, recovers)) == StoreOf(said)
  {
  }

  lemma {:induction false} ErrsHappens(reports: seq<EventType>, inReport: bool)
    returns (steps: seq<Step>, used: set<ChanId>)
    requires ProperErr(reports, inReport)
    ensures Arrives(steps, Errs(reports, inReport), used) && used <= {1}
  {
    if inReport {
      steps := ErrsInReportHappens(reports);
      used := {1};
    } else {
      hide Possible, After, Ready, AllSaid, AtWork;
      steps := WorksHappens(reports);
      steps := Return(steps, {}, PlannerError);
      used := {};
      assert Told(Errs(reports, false)) == AtWork(reports) + [Planned(PlannerError)];
    }
  }

  lemma {:induction false} ErrsInReportHappens(reports: seq<EventType>) returns (steps: seq<Step>)
    requires ProperErr(reports, true)
    ensures Arrives(steps, Errs(reports, true), {1})
  {
    hide Possible, After, Ready, AllSaid;
    var n := |reports| - 1;
    steps := WorksHappens(reports[..n]);
    assert reports == reports[..n] + [reports[n]];
    SaidOne(reports[..n], reports[n]);
    steps := PanicsNext(steps, Works(reports[..n]), {}, 1, reports[n], true, Works(reports));
    assert {} + {1} == {1};
  }

  lemma {:induction false} UnheardHappens(reports: seq<EventType>, recovers: bool) returns (steps: seq<Step>)
    requires ProperCause(Unheard(reports, recovers))
    ensures Arrives(steps, Recovers(Unheard(reports, recovers)), {1})
  {
    hide Possible, After, Ready, AllSaid;
    if reports == [] {
      steps := BegunHappens();
      NoneSaid();
      assert AtWork([]) == Told(Begun) + [Says(Progress)];
      steps := PanicsNext(steps, Begun, {}, 1, Progress, recovers, Works([]));
    } else {
      var n := |reports| - 1;
      steps := WorksHappens(reports[..n]);
      assert reports == reports[..n] + [reports[n]];
      SaidOne(reports[..n], reports[n]);
      steps := PanicsNext(steps, Works(reports[..n]), {}, 1, reports[n], recovers, Works(reports));
    }
    assert {} + {1} == {1};
  }

  lemma {:induction false} UnheardSummaryHappens(reports: seq<EventType>, rest: seq<EventType>, recovers: bool)
    returns (steps: seq<Step>)
    requires ProperCause(UnheardSummary(reports, rest, recovers))
    ensures Arrives(steps, Recovers(UnheardSummary(reports, rest, recovers)), {1})
  {
    hide Possible, After, Ready, AllSaid;
    var n := |rest| - 1;
    steps := SumsHappens(reports, rest[..n]);
    assert rest == rest[..n] + [rest[n]];
    SaidOne(rest[..n], rest[n]);
    steps := PanicsNext(steps, Sums(reports, rest[..n]), {}, 1, rest[n], recovers, Sums(reports, rest));
    assert {} + {1} == {1};
  }

  lemma {:induction false} UnheardEndHappens(cause: Cause) returns (steps: seq<Step>, used: set<ChanId>)
    requires ProperCause(cause) && (cause.UnheardDone? || cause.UnheardError?)
    ensures Arrives(steps, Recovers(cause), used) && 3 !in used
  {
    hide Possible, After, Ready, AllSaid, Summing, AtWork, Erring;
    if cause.UnheardDone? {
      var reports, rest := cause.reports, cause.rest;
      steps := SumsHappens(reports, rest);
      steps := PanicsNext(steps, Sums(reports, rest), {}, 1, Done, cause.recovers, SaysDone(reports, rest));
      used := {} + {1};
    } else {
      var reports, inReport := cause.reports, cause.inReport;
      var before;
      steps, before := ErrsHappens(reports, inReport);
      steps := PanicsNext(steps, Errs(reports, inReport), before, 2, Error, cause.recovers,
          SaysError(reports, inReport));
      used := before + {2};
    }
  }

  lemma {:induction false} CauseHappens(cause: Cause) returns (steps: seq<Step>, used: set<ChanId>)
    requires ProperCause(cause)
    ensures Arrives(steps, Recovers(cause), used) && 3 !in used
  {
    hide Possible, After, Ready, AllSaid, Summing, AtWork;
    match cause
    case Unheard(reports, recovers) =>
      used := {1};
      steps := UnheardHappens(reports, recovers);
    case Returned(reports, result) =>
      used := {};
      steps := WorksHappens(reports);
      steps := Return(steps, {}, result);
    case UnheardSummary(reports, rest, recovers) =>
      used := {1};
      steps := UnheardSummaryHappens(reports, rest, recovers);
    case UnheardDone(_, _, _) => steps, used := UnheardEndHappens(cause);
    case UnheardError(_, _, _) => steps, used := UnheardEndHappens(cause);
  }

  lemma {:induction false} StartHappens(course: Course) returns (steps: seq<Step>, used: set<ChanId>)
    requires course.Unborn? || course.Waiting? || course.Orphan? || course.Refusal? || course.Begun?
    ensures Arrives(steps, course, used)
  {
    hide Possible, After, Ready;
    used := {};
    if course.Begun? {
      steps := BegunHappens();
    } else {
      steps := ReadersAsk();
      if course.Orphan? {
        steps := PanicsNext(steps, Unborn, {}, 1, Progress, course.recovers, Waiting);
        used := {} + {1};
      } else if course.Waiting? || course.Refusal? {
        steps := Say(steps, {}, Progress);
        if course.Refusal? {
          steps := Write(steps, {}, Fails(course.kept));
        }
      }
    }
  }

  lemma {:induction false} PlannedHappens(course: Course) returns (steps: seq<Step>, used: set<ChanId>)
    requires course.Sums? || course.SaysDone? || course.Succeeds? || course.Errs? || course.SaysError?
             || course.GivesUp?
    requires Proper(course)
    ensures Arrives(steps, course, used)
  {
    hide Possible, After, Ready, Summing, Erring;
    used := {};
    if course.Sums? || course.SaysDone? || course.Succeeds? {
      steps := SumsHappens(course.reports, course.rest);
      if !course.Sums? {
        steps := Say(steps, {}, Done);
      }
      if course.Succeeds? {
        steps := Write(steps, {}, course.end);
      }
    } else {
      steps, used := ErrsHappens(course.reports, course.inReport);
      if !course.Errs? {
        steps := Say(steps, used, Error);
      }
      if course.GivesUp? {
        steps := Write(steps, used, course.end);
      }
    }
  }

  lemma {:induction false} RecoveryHappens(course: Course) returns (steps: seq<Step>, used: set<ChanId>)
    requires course.Recovers? || course.Records? || course.Reports? || course.Crashes?
    requires Proper(course)
    ensures Arrives(steps, course, used)
  {
    hide Possible, After, Ready, CauseTold, ProperCause;
    steps, used := CauseHappens(course.cause);
    if !course.Recovers? {
      steps := Write(steps, used, course.recover);
      if course.Reports? {
        steps := Say(steps, used, Error);
      } else if course.Crashes? {
        steps := CrashHappens(steps, course.cause, course.recover, used, course.recovers);
        used := used + {3};
      }
    }
  }

  lemma CrashHappens(steps: seq<Step>, cause: Cause, recover: Written, used: set<ChanId>, recovers: bool)
    returns (more: seq<Step>)
    requires Arrives(steps, Records(cause, recover), used) && ProperCause(cause) && 3 !in used
    ensures Arrives(more, Crashes(cause, recover, recovers), used + {3})
  {
    hide Possible, After, CauseTold, ProperCause;
    assert used <= {1, 2, 3};
    hide Ready;
    more := PanicsNext(steps, Records(cause, recover), used, 3, Error, recovers, Reports(cause, recover));
  }

  /** Every course can be taken, by some run. */
  lemma {:induction false} CourseHappens(course: Course) returns (steps: seq<Step>)
    requires Proper(course)
    ensures Possible(START, steps) && Acts(steps) == Told(course)
    ensures After(START, steps).pc == PcOf(course) && After(START, steps).store == StoreOf(course)
  {
    var used;
    if course.Works? {
      steps := WorksHappens(course.reports);
    } else if course.Recovers? || course.Records? || course.Reports? || course.Crashes? {
      steps, used := RecoveryHappens(course);
    } else if course.Unborn? || course.Waiting? || course.Orphan? || course.Refusal? || course.Begun? {
      steps, used := StartHappens(course);
    } else {
      steps, used := PlannedHappens(course);
    }
    hide Possible, After, Ready, Told, PcOf, StoreOf;
  }

  /** What the code can do, for whatever store, planner and readers: exactly the courses of this file. */
  lemma RunsAreCourses(acts: seq<Act>)
    ensures (exists steps :: Possible(START, steps) && Acts(steps) == acts) <==>
              exists course :: Proper(course) && Told(course) == acts
  {
    hide Possible, After, Acts, Told, Proper, Ready;
    if steps :| Possible(START, steps) && Acts(steps) == acts {
      var course := EveryRunIsACourse(steps);
    }
    if course :| Proper(course) && Told(course) == acts {
      var steps := CourseHappens(course);
    }
  }
}
