/**
  One task from creation to its terminal event, with any number of stream readers, interleaved
  (runTask in internal/travel/service.go, StreamPlan in internal/travel/handler.go, the event bus
  in between). Every store call, snapshot, send and channel operation is a step of its own.
 */
module TaskStream {
  import opened EventBus
  import opened Wrappers
  import D = EventDelivery

  /** The stored status of the task. */
  datatype Status = Pending | Running | Succeeded | Failed

  /**
    Where CreateTask and runTask are. A publication moves on at its snapshot; the next statement waits
    until its sends are done. Recovering and Reporting are the deferred recover function: the store
    update, then the error event. Refused: the running update failed. Orphaned: creation panicked
    before runTask started. Crashed: the recover function itself panicked.
   */
  datatype Pc =
    | Created | Queued | Started | Calling | Planning | Erred | Finishing | Ending(status: Status)
    | Recovering | Reporting | Stopped | Refused | Orphaned | Crashed

  /** How a store update comes out; `kept` when it was made although it reported an error. */
  datatype Written = Fine | Fails(kept: bool)

  /** What planner.Plan comes back with; a nil plan without an error makes runTask panic. */
  datatype PlannerResult = Plan | NilPlan | PlannerError | PlannerPanic

  /**
    A StreamPlan request: it has read the status; it streams; it is about to unsubscribe; it is done
    streaming; or it has replayed the history of a finished task, adding a terminal event of its own
    when the history has none. `complete` is false when the client went away first.
   */
  datatype Reader =
    | Asked(status: Status)
    | Streaming
    | Leaving(complete: bool)
    | Ended(complete: bool)
    | Replayed(output: seq<TaskEvent>)

  /** `late`: the terminal event's own publication met a closed channel. */
  datatype State = State(bus: D.State, pc: Pc, store: Status, readers: map<ChanId, Reader>, late: bool)

  const START := State(D.START, Created, Pending, map[], false)

  datatype Step =
    | Publish(kind: EventType, message: string)
    | Send(c: ChanId)
    | SendToClosed(c: ChanId, plannerRecovers: bool)
    | UpdateStore(outcome: Written)
    | PlannerReturns(result: PlannerResult)
    | AskStatus(r: ChanId)
    | ReplayHistory(r: ChanId)
    | Join(r: ChanId)
    | Take(r: ChanId)
    | GoAway(r: ChanId)
    | Close(r: ChanId)

  predicate TerminalKind(kind: EventType) {
    kind.Done? || kind.Error?
  }

  /** Which events the code publishes where, and where it goes next. */
  function AfterPublish(pc: Pc, kind: EventType): Option<Pc> {
    match pc
    case Created => if kind.Progress? then Some(Queued) else None
    case Started => if kind.Progress? then Some(Calling) else None
    case Calling => if TerminalKind(kind) then None else Some(Planning)
    case Planning => if TerminalKind(kind) then None else Some(Planning)
    case Finishing => if kind.Done? then Some(Ending(Succeeded)) else if kind.Error? then None else Some(Finishing)
    case Erred => if kind.Error? then Some(Ending(Failed)) else None
    case Reporting => if kind.Error? then Some(Stopped) else None
    case _ => None
  }

  function Stored(before: Status, status: Status, outcome: Written): Status {
    if outcome == Fails(false) then before else status
  }

  /** The program counter and the stored status after a store update. */
  function AfterUpdate(pc: Pc, store: Status, outcome: Written): Option<(Pc, Status)> {
    match pc
    case Queued => Some((if outcome == Fine then Started else Refused, Stored(store, Running, outcome)))
    case Ending(status) => Some((Stopped, Stored(store, status, outcome)))
    case Recovering => Some((Reporting, Stored(store, Failed, outcome)))
    case _ => None
  }

  /** Where a panic in Publish leads; a planner may turn a panic in one of its own reports into an error. */
  function AfterPanic(pc: Pc, plannerRecovers: bool): Pc {
    match pc
    case Queued => Orphaned
    case Planning => if plannerRecovers then Erred else Recovering
    case Stopped => Crashed
    case _ => Recovering
  }

  function AfterPlanner(result: PlannerResult): Pc {
    if result == Plan then Finishing else if result == PlannerError then Erred else Recovering
  }

  predicate Finished(status: Status) {
    status == Succeeded || status == Failed
  }

  function Synthesized(status: Status): TaskEvent {
    TaskEvent(if status == Succeeded then Done else Error, "", "", 0)
  }

  /** What a request for a finished task writes: the history, and a terminal event if there was none. */
  function Replay(history: seq<TaskEvent>, status: Status): seq<TaskEvent> {
    history + if exists i | 0 <= i < |history| :: IsTerminal(history[i]) then [] else [Synthesized(status)]
  }

  predicate Enabled(s: State, step: Step) {
    match step
    case Publish(kind, _) => !D.Busy(s.bus) && AfterPublish(s.pc, kind).Some?
    case Send(c) => D.Enabled(s.bus, D.Step.Send(c))
    case SendToClosed(c, _) => D.Enabled(s.bus, D.Step.SendToClosed(c))
    case UpdateStore(outcome) => !D.Busy(s.bus) && AfterUpdate(s.pc, s.store, outcome).Some?
    case PlannerReturns(_) => !D.Busy(s.bus) && (s.pc == Calling || s.pc == Planning)
    case AskStatus(r) => r !in s.readers
    case ReplayHistory(r) => r in s.readers && s.readers[r].Asked? && Finished(s.readers[r].status)
    case Join(r) =>
      && r in s.readers && s.readers[r].Asked? && !Finished(s.readers[r].status)
      && D.Enabled(s.bus, D.Step.Subscribe(r))
    case Take(r) => r in s.readers && s.readers[r] == Streaming && D.Enabled(s.bus, D.Step.Take(r))
    case GoAway(r) => r in s.readers && s.readers[r] == Streaming
    case Close(r) => r in s.readers && s.readers[r].Leaving? && D.Enabled(s.bus, D.Step.Unsubscribe(r))
  }

  function Apply(s: State, step: Step): State
    requires Enabled(s, step)
  {
    match step
    case Publish(kind, message) =>
      var event := TaskEvent(kind, "", message, 0);
      s.(bus := D.Apply(s.bus, D.Step.Snapshot(event)), pc := AfterPublish(s.pc, kind).value)
    case Send(c) => s.(bus := D.Apply(s.bus, D.Step.Send(c)))
    case SendToClosed(c, plannerRecovers) =>
      s.(bus := D.Apply(s.bus, D.Step.SendToClosed(c)), pc := AfterPanic(s.pc, plannerRecovers),
         late := s.late || s.pc.Ending?)
    case UpdateStore(outcome) =>
      var (pc, store) := AfterUpdate(s.pc, s.store, outcome).value;
      s.(pc := pc, store := store)
    case PlannerReturns(result) =>
      s.(pc := AfterPlanner(result))
    case AskStatus(r) => s.(readers := s.readers[r := Asked(s.store)])
    case ReplayHistory(r) =>
      s.(readers := s.readers[r := Replayed(Replay(s.bus.topic.history, s.readers[r].status))])
    case Join(r) => s.(bus := D.Apply(s.bus, D.Step.Subscribe(r)), readers := s.readers[r := Streaming])
    case Take(r) =>
      var event := s.bus.inboxes[r].channel.buffer[0];
      s.(bus := D.Apply(s.bus, D.Step.Take(r)),
         readers := if IsTerminal(event) then s.readers[r := Leaving(true)] else s.readers)
    case GoAway(r) => s.(readers := s.readers[r := Leaving(false)])
    case Close(r) =>
      s.(bus := D.Apply(s.bus, D.Step.Unsubscribe(r)), readers := s.readers[r := Ended(s.readers[r].complete)])
  }

  ghost predicate Possible(s: State, steps: seq<Step>)
    decreases |steps|
  {
    steps == [] || (Enabled(s, steps[0]) && Possible(Apply(s, steps[0]), steps[1..]))
  }

  ghost function After(s: State, steps: seq<Step>): State
    requires Possible(s, steps)
    decreases |steps|
  {
    if steps == [] then s else After(Apply(s, steps[0]), steps[1..])
  }

  // ---------------------------------------------------------------- the store

  /** The only ways the stored status moves. */
  predicate StoreMoves(before: Status, after: Status) {
    before == after || (before == Pending && after == Running) || (before == Running && Finished(after))
  }

  /** Which statuses are possible at a program counter. */
  predicate StoreFits(pc: Pc, store: Status) {
    match pc
    case Created => store == Pending
    case Queued => store == Pending
    case Refused => store == Pending || store == Running
    case Orphaned => store == Pending
    case Reporting => store == Running || store == Failed
    case Stopped => store != Pending
    case Crashed => store != Pending
    case Ending(status) => store == Running && Finished(status)
    case _ => store == Running
  }

  /** Sends are in flight only after a publication. */
  predicate SendsFit(s: State) {
    D.Busy(s.bus) ==>
      || s.pc == Queued || s.pc == Calling || s.pc == Planning || s.pc == Finishing || s.pc.Ending? || s.pc == Stopped
  }

  ghost predicate StoreInv(s: State) {
    StoreFits(s.pc, s.store) && SendsFit(s)
  }

  lemma StepKeepsStoreInv(s: State, step: Step)
    requires StoreInv(s) && Enabled(s, step)
    ensures StoreInv(Apply(s, step))
    ensures StoreMoves(s.store, Apply(s, step).store)
  {
    StepKeepsSendsFit(s, step);
    hide D.Apply, D.Enabled, D.Busy, SendsFit;
    if step.SendToClosed? {
      SendNeedsBusy(s, step);
    }
  }

  lemma SendNeedsBusy(s: State, step: Step)
    requires StoreInv(s) && Enabled(s, step) && step.SendToClosed?
    ensures s.pc == Queued || s.pc == Calling || s.pc == Planning || s.pc == Finishing || s.pc.Ending?
            || s.pc == Stopped
  {
  }

  lemma StepKeepsSendsFit(s: State, step: Step)
    requires SendsFit(s) && Enabled(s, step)
    ensures SendsFit(Apply(s, step))
  {
  }

  // ---------------------------------------------------------------- the events

  /** No event but the last one is terminal. */
  ghost predicate TerminalOnlyLast(log: seq<TaskEvent>) {
    forall i | 0 <= i < |log| - 1 :: !IsTerminal(log[i])
  }

  predicate EndsTerminal(log: seq<TaskEvent>) {
    log != [] && IsTerminal(log[|log| - 1])
  }

  /** Exactly one terminal event, and it is the last event. */
  ghost predicate EndsOnce(log: seq<TaskEvent>) {
    TerminalOnlyLast(log) && EndsTerminal(log)
  }

  /** The terminal event and the status say the same. */
  predicate Agrees(status: Status, e: TaskEvent) {
    (status == Succeeded && e.kind.Done?) || (status == Failed && e.kind.Error?)
  }

  /**
    The log ends when runTask does, and agrees with the store, unless sending the terminal event met a
    closed channel: then the recover function adds a second terminal event, an error.
   */
  ghost predicate RunInv(s: State) {
    if s.late then LateInv(s) else
    var log := s.bus.log;
    && TerminalOnlyLast(log)
    && (EndsTerminal(log) <==> s.pc.Ending? || s.pc == Stopped || s.pc == Crashed)
    && (s.pc.Ending? || s.pc == Stopped ==> s.bus.sending.Some?)
    && (s.pc.Ending? ==> Agrees(s.pc.status, log[|log| - 1]))
    && ((s.pc == Stopped || s.pc == Crashed) && Finished(s.store) ==> Agrees(s.store, log[|log| - 1]))
  }

  ghost predicate LateInv(s: State) {
    match s.pc
    case Recovering => EndsOnce(s.bus.log)
    case Reporting => EndsOnce(s.bus.log)
    case Stopped => EndsTwice(s.bus.log) && s.bus.sending.Some?
    case Crashed => EndsTwice(s.bus.log)
    case _ => false
  }

  /** Exactly two terminal events, the last two, and the last one is an error. */
  ghost predicate EndsTwice(log: seq<TaskEvent>) {
    && |log| >= 2
    && (forall i | 0 <= i < |log| - 2 :: !IsTerminal(log[i]))
    && IsTerminal(log[|log| - 2]) && log[|log| - 1].kind.Error?
  }

  ghost predicate NoneTerminal(events: seq<TaskEvent>) {
    forall i | 0 <= i < |events| :: !IsTerminal(events[i])
  }

  /** A reader has seen no terminal event before the one that ends it. */
  ghost predicate ReaderInv(s: State, r: ChanId)
    requires r in s.readers
  {
    match s.readers[r]
    case Asked(status) => Finished(status) ==> s.store == status
    case Streaming => r in s.bus.topic.subscribers && r in s.bus.inboxes && NoneTerminal(s.bus.inboxes[r].taken)
    case Leaving(complete) =>
      r in s.bus.inboxes && r in s.bus.topic.subscribers && (complete ==> EndsOnce(s.bus.inboxes[r].taken))
    case Ended(complete) => r in s.bus.inboxes && (complete ==> EndsOnce(s.bus.inboxes[r].taken))
    case Replayed(output) => !s.late ==> EndsOnce(output) && Agrees(s.store, output[|output| - 1])
  }

  ghost predicate Inv(s: State) {
    && D.Inv(s.bus)
    && StoreInv(s)
    && (forall r | r in s.readers :: ReaderInv(s, r))
    && RunInv(s)
  }

  lemma StartInv()
    ensures Inv(START)
  {
  }

  /** The bus step of each step. */
  lemma {:induction false} StepKeepsBusInv(s: State, step: Step)
    requires D.Inv(s.bus) && Enabled(s, step)
    ensures D.Inv(Apply(s, step).bus)
  {
    hide D.Inv, D.Apply, D.Enabled, D.Busy;
    match step
    case Publish(kind, message) =>
      SnapshotEnabled(s.bus, TaskEvent(kind, "", message, 0));
      D.StepKeepsInv(s.bus, D.Step.Snapshot(TaskEvent(kind, "", message, 0)));
    case Send(c) => D.StepKeepsInv(s.bus, D.Step.Send(c));
    case SendToClosed(c, _) => D.StepKeepsInv(s.bus, D.Step.SendToClosed(c));
    case Join(r) => D.StepKeepsInv(s.bus, D.Step.Subscribe(r));
    case Take(r) => D.StepKeepsInv(s.bus, D.Step.Take(r));
    case Close(r) => D.StepKeepsInv(s.bus, D.Step.Unsubscribe(r));
    case UpdateStore(_) =>
    case PlannerReturns(_) =>
    case AskStatus(_) =>
    case ReplayHistory(_) =>
    case GoAway(_) =>
  }

  lemma SnapshotEnabled(b: D.State, e: TaskEvent)
    requires !D.Busy(b)
    ensures D.Enabled(b, D.Step.Snapshot(e))
  {
  }

  lemma StepKeepsRunInv(s: State, step: Step)
    requires StoreInv(s) && RunInv(s) && Enabled(s, step)
    ensures RunInv(Apply(s, step))
  {
    var s' := Apply(s, step);
    if step.Publish? {
      var n := |s.bus.log|;
      assert s'.bus.log[n].kind == step.kind;
      if s.late {
        assert s'.bus.log[n - 1] == s.bus.log[n - 1];
      }
    }
  }

  /** What a finished task's history replays to. */
  lemma ReplayEndsOnce(log: seq<TaskEvent>, history: seq<TaskEvent>, status: Status)
    requires history == LastOf(log, EVENT_HISTORY_LIMIT)
    requires TerminalOnlyLast(log) && Finished(status)
    requires EndsTerminal(log) ==> Agrees(status, log[|log| - 1])
    ensures EndsOnce(Replay(history, status))
    ensures var out := Replay(history, status); Agrees(status, out[|out| - 1])
  {
  }

  /** Steps of others leave a reader's channel subscribed and what it took untouched. */
  lemma BusKeepsInbox(b: D.State, step: D.Step, r: ChanId)
    requires D.Enabled(b, step) && r in b.inboxes && step != D.Step.Take(r)
    ensures r in D.Apply(b, step).inboxes && D.Apply(b, step).inboxes[r].taken == b.inboxes[r].taken
    ensures step != D.Step.Unsubscribe(r) && r in b.topic.subscribers ==> r in D.Apply(b, step).topic.subscribers
  {
  }

  /** The reader a step belongs to, if any. */
  predicate OwnStep(step: Step, r: ChanId) {
    step in {AskStatus(r), ReplayHistory(r), Join(r), Take(r), GoAway(r), Close(r)}
  }

  function BusStep(step: Step): Option<D.Step> {
    match step
    case Publish(kind, message) => Some(D.Step.Snapshot(TaskEvent(kind, "", message, 0)))
    case Send(c) => Some(D.Step.Send(c))
    case SendToClosed(c, _) => Some(D.Step.SendToClosed(c))
    case Join(r) => Some(D.Step.Subscribe(r))
    case Take(r) => Some(D.Step.Take(r))
    case Close(r) => Some(D.Step.Unsubscribe(r))
    case _ => None
  }

  lemma OthersKeepReaderInv(s: State, step: Step, r: ChanId)
    requires StoreInv(s) && Enabled(s, step) && r in s.readers && ReaderInv(s, r)
    requires !OwnStep(step, r)
    ensures r in Apply(s, step).readers && ReaderInv(Apply(s, step), r)
  {
    hide D.Apply, D.Enabled, NoneTerminal, EndsOnce;
    StepKeepsStoreInv(s, step);
    if BusStep(step).Some? {
      if r in s.bus.inboxes {
        BusKeepsInbox(s.bus, BusStep(step).value, r);
      }
    }
  }

  lemma OwnStepKeepsReaderInv(s: State, step: Step, r: ChanId)
    requires D.Inv(s.bus) && StoreInv(s) && RunInv(s) && (r in s.readers ==> ReaderInv(s, r))
    requires Enabled(s, step) && OwnStep(step, r)
    ensures r in Apply(s, step).readers && ReaderInv(Apply(s, step), r)
  {
    hide RunInv, StoreInv, D.Inv;
    if step.ReplayHistory? {
      ReplayKeepsReaderInv(s, r);
    } else if step.Take? {
      TakeKeepsReaderInv(s, r);
    } else {
      hide EndsOnce, NoneTerminal;
    }
  }

  lemma ReplayKeepsReaderInv(s: State, r: ChanId)
    requires D.Inv(s.bus) && StoreInv(s) && RunInv(s)
    requires r in s.readers && ReaderInv(s, r) && Enabled(s, ReplayHistory(r))
    ensures ReaderInv(Apply(s, ReplayHistory(r)), r)
  {
    if !s.late {
      ReplayEndsOnce(s.bus.log, s.bus.topic.history, s.store);
    }
  }

  lemma TakeKeepsReaderInv(s: State, r: ChanId)
    requires r in s.readers && ReaderInv(s, r) && Enabled(s, Take(r))
    ensures ReaderInv(Apply(s, Take(r)), r)
  {
  }

  lemma {:induction false} StepKeepsReaderInv(s: State, step: Step, r: ChanId)
    requires Inv(s) && Enabled(s, step) && r in Apply(s, step).readers
    ensures ReaderInv(Apply(s, step), r)
  {
    hide D.Inv, D.Apply, D.Enabled, ReaderInv, RunInv, StoreInv;
    if OwnStep(step, r) {
      OwnStepKeepsReaderInv(s, step, r);
    } else {
      OthersKeepReaderInv(s, step, r);
    }
  }

  lemma {:induction false} StepKeepsInv(s: State, step: Step)
    requires Inv(s) && Enabled(s, step)
    ensures Inv(Apply(s, step))
  {
    hide Apply, Enabled, D.Inv, RunInv, StoreInv, ReaderInv;
    StepKeepsBusInv(s, step);
    StepKeepsStoreInv(s, step);
    StepKeepsRunInv(s, step);
    forall r | r in Apply(s, step).readers
      ensures ReaderInv(Apply(s, step), r)
    {
      StepKeepsReaderInv(s, step, r);
    }
  }

  lemma {:induction false} RunKeepsInv(s: State, steps: seq<Step>)
    requires Inv(s) && Possible(s, steps)
    ensures Inv(After(s, steps))
    decreases |steps|
  {
    hide Inv, Apply, Enabled;
    if steps != [] {
      StepKeepsInv(s, steps[0]);
      RunKeepsInv(Apply(s, steps[0]), steps[1..]);
    }
  }

  // ---------------------------------------------------------------- for every run

  /** All that one reader's response contains, after the "stream connected" line. */
  function Shown(s: State, r: ChanId): seq<TaskEvent>
    requires r in s.readers
  {
    if s.readers[r].Replayed? then s.readers[r].output
    else if r in s.bus.inboxes then s.bus.inboxes[r].taken
    else []
  }

  /**
    On every run, a streaming reader that stayed to the end has shown exactly one terminal event, as its
    last. Unless sending the terminal event met a closed channel, so has every reader of a finished
    task, replayed or synthesized, and it is the one the stored status stands for; ReplayIsRightIff says
    what readers are replayed otherwise.
   */
  lemma ReadersSeeOneTerminalEvent(steps: seq<Step>, r: ChanId)
    requires Possible(START, steps) && r in After(START, steps).readers
    ensures var s := After(START, steps);
            && (s.readers[r] == Ended(true) ==> EndsOnce(Shown(s, r)))
            && (s.readers[r].Replayed? && !s.late ==>
                  EndsOnce(Shown(s, r)) && Agrees(s.store, Shown(s, r)[|Shown(s, r)| - 1]))
  {
    StartInv();
    RunKeepsInv(START, steps);
    assert ReaderInv(After(START, steps), r);
  }

  /**
    On every run: what a request for a finished task would be given now ends in exactly one terminal event
    unless sending the terminal event met a closed channel and the recover function's error has followed. It
    is the one the stored status stands for, except that a done event is replayed for a failed task as long
    as that error has not followed.
   */
  lemma ReplayIsRightIff(steps: seq<Step>, r: ChanId)
    requires Possible(START, steps) && Enabled(After(START, steps), ReplayHistory(r))
    ensures var s := After(START, steps); var output := Replay(s.bus.topic.history, s.readers[r].status);
            && (EndsOnce(output) <==> !s.late || s.pc == Reporting)
            && (EndsOnce(output) && Agrees(s.store, output[|output| - 1]) <==>
                !s.late || (s.pc == Reporting && !EndsDone(s.bus.log)))
  {
    StartInv();
    RunKeepsInv(START, steps);
    hide Possible, After;
    ReplayOf(After(START, steps), r);
  }

  predicate EndsDone(log: seq<TaskEvent>) {
    log != [] && log[|log| - 1].kind.Done?
  }

  lemma ReplayOf(s: State, r: ChanId)
    requires Inv(s) && Enabled(s, ReplayHistory(r))
    ensures var output := Replay(s.bus.topic.history, s.readers[r].status);
            && (EndsOnce(output) <==> !s.late || s.pc == Reporting)
            && (EndsOnce(output) && Agrees(s.store, output[|output| - 1]) <==>
                !s.late || (s.pc == Reporting && !EndsDone(s.bus.log)))
  {
    assert ReaderInv(s, r) && s.readers[r].status == s.store;
    assert s.bus.topic.history == LastOf(s.bus.log, EVENT_HISTORY_LIMIT);
    hide D.Inv, ReaderInv;
    if !s.late {
      ReplayEndsOnce(s.bus.log, s.bus.topic.history, s.store);
    } else if s.pc == Reporting {
      LateReplay(s.bus.log, s.bus.topic.history, s.store);
    } else {
      TwiceReplayed(s.bus.log, s.bus.topic.history, s.store);
    }
  }

  /**
    A request for a finished task is given the last 100 events, in order, and if none of them is terminal
    one more: done for a succeeded task, an error for a failed one.
   */
  lemma ReplayIsTheRecentPast(steps: seq<Step>, r: ChanId)
    requires Possible(START, steps) && Enabled(After(START, steps), ReplayHistory(r))
    ensures var s := After(START, steps); var log := s.bus.log;
            var recent := if |log| > 100 then log[|log| - 100..] else log;
            var output := Shown(Apply(s, ReplayHistory(r)), r);
            if exists e | e in recent :: e.kind.Done? || e.kind.Error? then output == recent
            else
              && |output| == |recent| + 1 && output[..|recent|] == recent
              && (s.store == Succeeded ==> output[|recent|].kind.Done?)
              && (s.store == Failed ==> output[|recent|].kind.Error?)
  {
    StartInv();
    RunKeepsInv(START, steps);
    hide Possible, After;
    RecentPastIsReplayed(After(START, steps), r);
  }

  lemma RecentPastIsReplayed(s: State, r: ChanId)
    requires Inv(s) && Enabled(s, ReplayHistory(r))
    ensures var log := s.bus.log;
            var recent := if |log| > 100 then log[|log| - 100..] else log;
            var output := Shown(Apply(s, ReplayHistory(r)), r);
            if exists e | e in recent :: e.kind.Done? || e.kind.Error? then output == recent
            else
              && |output| == |recent| + 1 && output[..|recent|] == recent
              && (s.store == Succeeded ==> output[|recent|].kind.Done?)
              && (s.store == Failed ==> output[|recent|].kind.Error?)
  {
    assert ReaderInv(s, r) && s.readers[r].status == s.store;
    var history := s.bus.topic.history;
    assert history == LastOf(s.bus.log, EVENT_HISTORY_LIMIT);
    hide D.Inv, ReaderInv, RunInv, StoreInv;
    assert Shown(Apply(s, ReplayHistory(r)), r) == Replay(history, s.store);
    assert history + [] == history;
    if e :| e in history && (e.kind.Done? || e.kind.Error?) {
      var i :| 0 <= i < |history| && history[i] == e;
      assert IsTerminal(history[i]);
    }
  }

  /** While only the first terminal event is there, the history replays to it. */
  lemma LateReplay(log: seq<TaskEvent>, history: seq<TaskEvent>, status: Status)
    requires history == LastOf(log, EVENT_HISTORY_LIMIT) && EndsOnce(log)
    ensures EndsOnce(Replay(history, status))
    ensures var output := Replay(history, status); output[|output| - 1] == log[|log| - 1]
  {
    assert IsTerminal(history[|history| - 1]);
    assert history + [] == history;
  }

  lemma TwiceReplayed(log: seq<TaskEvent>, history: seq<TaskEvent>, status: Status)
    requires history == LastOf(log, EVENT_HISTORY_LIMIT) && EndsTwice(log)
    ensures Replay(history, status) == history && !EndsOnce(history)
  {
    assert IsTerminal(history[|history| - 2]) && IsTerminal(history[|history| - 1]);
    assert history + [] == history;
  }

  /** A terminal event that this inbox was given: published since its replay began, and not lost. */
  ghost predicate GivenTerminal(log: seq<TaskEvent>, b: D.Inbox) {
    exists n | D.ReplayStart(b.joined) < n <= |log| :: IsTerminal(log[n - 1]) && n !in D.Gone(b)
  }

  predicate HasTerminal(events: seq<TaskEvent>) {
    exists e | e in events :: IsTerminal(e)
  }

  /**
    On every run in which the terminal event has been sent out, or its sending was given up and the recover
    function's error sent out: a reader that is still streaming has a terminal event waiting in its channel
    exactly when it was given one. So it has whenever the last event was not dropped on its full buffer;
    and when that event is the only terminal one, only then, and as the last in the channel.
   */
  lemma NoReaderIsStranded(steps: seq<Step>, r: ChanId)
    requires Possible(START, steps) && r in After(START, steps).readers
    requires var s := After(START, steps);
             s.readers[r] == Streaming && (s.pc.Ending? || s.pc == Stopped) && !D.Busy(s.bus)
    ensures var s := After(START, steps);
            && r in s.bus.inboxes
            && var b := s.bus.inboxes[r];
            && (HasTerminal(b.channel.buffer) <==> GivenTerminal(s.bus.log, b))
            && (|s.bus.log| !in b.overflowed ==> EndsTerminal(b.channel.buffer))
            && (!s.late ==> (EndsTerminal(b.channel.buffer) <==> |s.bus.log| !in b.overflowed))
  {
    StartInv();
    RunKeepsInv(START, steps);
    hide Possible, After;
    Waiting(After(START, steps), r);
  }

  lemma Waiting(s: State, r: ChanId)
    requires Inv(s) && r in s.readers && s.readers[r] == Streaming
    requires (s.pc.Ending? || s.pc == Stopped) && !D.Busy(s.bus)
    ensures r in s.bus.inboxes
    ensures var b := s.bus.inboxes[r];
            && (HasTerminal(b.channel.buffer) <==> GivenTerminal(s.bus.log, b))
            && (|s.bus.log| !in b.overflowed ==> EndsTerminal(b.channel.buffer))
            && (!s.late ==> (EndsTerminal(b.channel.buffer) <==> |s.bus.log| !in b.overflowed))
  {
    hide D.Served, HasTerminal, GivenTerminal, D.Numbered;
    assert ReaderInv(s, r);
    assert D.InTurn(s.bus, r) && D.Served(s.bus.log, s.bus.inboxes[r]);
    TerminalWaits(s.bus.log, s.bus.inboxes[r]);
    LastEventWaits(s.bus.log, s.bus.inboxes[r]);
  }

  /** What a reader was given and has not taken is waiting. */
  lemma TerminalWaits(log: seq<TaskEvent>, b: D.Inbox)
    requires D.Numbered(log) && D.Served(log, b) && b.dealt == |log| && NoneTerminal(b.taken)
    ensures HasTerminal(b.channel.buffer) <==> GivenTerminal(log, b)
  {
    hide D.Numbered, D.Window, D.Selects, D.Gone, D.ReplayStart, NoneTerminal, HasTerminal;
    D.WindowMeaning(log, D.ReplayStart(b.joined), |log|, D.Gone(b));
    RestHasTerminal(b.taken, b.channel.buffer, log, D.ReplayStart(b.joined), D.Gone(b));
  }

  lemma RestHasTerminal(taken: seq<TaskEvent>, rest: seq<TaskEvent>, log: seq<TaskEvent>, lo: nat, gone: set<nat>)
    requires D.Selects(taken + rest, log, lo, |log|, gone) && NoneTerminal(taken)
    ensures HasTerminal(rest) <==> exists n | lo < n <= |log| :: IsTerminal(log[n - 1]) && n !in gone
  {
    if HasTerminal(rest) {
      var e :| e in rest && IsTerminal(e);
      assert e in taken + rest;
    }
    if n :| lo < n <= |log| && IsTerminal(log[n - 1]) && n !in gone {
      assert log[n - 1] in taken || log[n - 1] in rest;
    }
  }

  /**
    A fully dealt inbox whose reader took no terminal event still holds the one that ends the log, unless
    it lost it.
   */
  lemma LastEventWaits(log: seq<TaskEvent>, b: D.Inbox)
    requires D.Numbered(log) && D.Served(log, b) && b.dealt == |log| && EndsTerminal(log)
    requires NoneTerminal(b.taken)
    ensures |log| !in D.Gone(b) ==> EndsTerminal(b.channel.buffer)
    ensures EndsOnce(log) ==> (EndsTerminal(b.channel.buffer) <==> |log| !in D.Gone(b))
  {
    var n, lo := |log|, D.ReplayStart(b.joined);
    var w := D.Window(log, lo, n - 1, D.Gone(b));
    assert D.Given(b) == w + if n in D.Gone(b) then [] else [log[n - 1]];
    hide D.Served, D.Window, D.Gone, D.ReplayStart;
    if n !in D.Gone(b) {
      LastIsLeft(b.taken, b.channel.buffer, w, log[n - 1]);
    } else if EndsOnce(log) {
      WindowHasNoTerminal(log, lo, n - 1, D.Gone(b));
      NoneIsLeft(b.taken, b.channel.buffer, w);
    }
  }

  lemma {:induction false} WindowHasNoTerminal(log: seq<TaskEvent>, lo: nat, hi: nat, gone: set<nat>)
    requires hi <= |log| && forall i | 0 <= i < hi :: !IsTerminal(log[i])
    ensures NoneTerminal(D.Window(log, lo, hi, gone))
  {
    if hi > lo {
      WindowHasNoTerminal(log, lo, hi - 1, gone);
    }
  }

  lemma LastIsLeft(taken: seq<TaskEvent>, buffer: seq<TaskEvent>, w: seq<TaskEvent>, last: TaskEvent)
    requires NoneTerminal(taken) && IsTerminal(last) && taken + buffer == w + [last]
    ensures EndsTerminal(buffer)
  {
    var given := taken + buffer;
    assert given[|given| - 1] == last;
    assert buffer == [] ==> taken == given;
    assert buffer != [] ==> given[|given| - 1] == buffer[|buffer| - 1];
  }

  lemma NoneIsLeft(taken: seq<TaskEvent>, buffer: seq<TaskEvent>, w: seq<TaskEvent>)
    requires NoneTerminal(w) && taken + buffer == w
    ensures !EndsTerminal(buffer)
  {
    assert buffer != [] ==> w[|w| - 1] == buffer[|buffer| - 1];
  }

  /**
    A task that has stopped published exactly one terminal event, as its last, if and only if sending
    the terminal event met no closed channel; and then, if the final update was stored, the stored
    status says the same.
   */
  lemma TaskEndsOnce(steps: seq<Step>)
    requires Possible(START, steps) && After(START, steps).pc == Stopped
    ensures var s := After(START, steps);
            && (EndsOnce(s.bus.log) <==> !s.late)
            && (!s.late && Finished(s.store) ==> Agrees(s.store, s.bus.log[|s.bus.log| - 1]))
  {
    StartInv();
    RunKeepsInv(START, steps);
  }

  /** The stored status is this one in some state of the run. */
  ghost predicate Passes(s: State, steps: seq<Step>, status: Status)
    requires Possible(s, steps)
    decreases |steps|
  {
    s.store == status || (steps != [] && Passes(Apply(s, steps[0]), steps[1..], status))
  }

  /**
    On every run the stored status moves from pending through running to one final status, and never back.
   */
  lemma {:induction false} StatusOnlyAdvances(steps: seq<Step>, more: seq<Step>)
    requires Possible(START, steps) && Possible(After(START, steps), more)
    ensures var before, after := After(START, steps).store, After(After(START, steps), more).store;
            && (Finished(before) ==> after == before)
            && (before == Running ==> after != Pending)
            && (before == Pending && Finished(after) ==> Passes(After(START, steps), more, Running))
  {
    StartInv();
    RunKeepsInv(START, steps);
    StoreAdvances(After(START, steps), more);
  }

  lemma {:induction false} StoreAdvances(s: State, steps: seq<Step>)
    requires StoreInv(s) && Possible(s, steps)
    ensures Finished(s.store) ==> After(s, steps).store == s.store
    ensures s.store == Running ==> After(s, steps).store != Pending
    ensures s.store == Pending && Finished(After(s, steps).store) ==> Passes(s, steps, Running)
    decreases |steps|
  {
    hide StoreInv, Apply, Enabled;
    if steps != [] {
      StepKeepsStoreInv(s, steps[0]);
      StoreAdvances(Apply(s, steps[0]), steps[1..]);
    }
  }

  /** On every run the code never updates a task that is stored as finished. */
  lemma FinishedTaskIsNotUpdated(steps: seq<Step>, outcome: Written)
    requires Possible(START, steps) && Enabled(After(START, steps), UpdateStore(outcome))
    ensures !Finished(After(START, steps).store)
  {
    StartInv();
    RunKeepsInv(START, steps);
  }

  // ---------------------------------------------------------------- how a task can end

  /** The four ways out of the code. */
  datatype Exit = Stopping | Refusing | Orphaning | Crashing

  predicate HasLeft(pc: Pc) {
    pc == Stopped || pc == Refused || pc == Orphaned || pc == Crashed
  }

  /**
    The guard of each way out: the update after the terminal event, or the error event of the recover
    function; a running update that reports an error; a closed channel met by the event of the
    creation; a closed channel met by the recover function's own event, which nothing recovers.
   */
  predicate Leads(exit: Exit, s: State, step: Step) {
    match exit
    case Stopping => (step.UpdateStore? && s.pc.Ending?) || (step.Publish? && s.pc == Reporting)
    case Refusing => step.UpdateStore? && step.outcome.Fails? && s.pc == Queued
    case Orphaning => step.SendToClosed? && s.pc == Queued
    case Crashing => step.SendToClosed? && s.pc == Stopped
  }

  /** Some step of the run is taken in a state in which it leads to this way out. */
  ghost predicate Taken(exit: Exit, s: State, steps: seq<Step>)
    requires Possible(s, steps)
    decreases |steps|
  {
    steps != [] && (Leads(exit, s, steps[0]) || Taken(exit, Apply(s, steps[0]), steps[1..]))
  }

  lemma {:induction false} ExitStep(s: State, step: Step)
    requires StoreInv(s) && Enabled(s, step)
    ensures Apply(s, step).pc == Refused <==> s.pc == Refused || Leads(Refusing, s, step)
    ensures Apply(s, step).pc == Orphaned <==> s.pc == Orphaned || Leads(Orphaning, s, step)
    ensures Apply(s, step).pc == Crashed <==> s.pc == Crashed || Leads(Crashing, s, step)
    ensures Apply(s, step).pc == Stopped <==> (s.pc == Stopped && !Leads(Crashing, s, step)) || Leads(Stopping, s, step)
  {
    hide D.Apply, D.Enabled, D.Busy;
    SendIsBusy(s, step);
  }

  lemma SendIsBusy(s: State, step: Step)
    requires Enabled(s, step)
    ensures step.SendToClosed? ==> D.Busy(s.bus)
  {
  }

  lemma {:induction false} ExitsAre(s: State, steps: seq<Step>)
    requires StoreInv(s) && Possible(s, steps)
    ensures var s' := After(s, steps);
            && (s'.pc == Refused <==> s.pc == Refused || Taken(Refusing, s, steps))
            && (s'.pc == Orphaned <==> s.pc == Orphaned || Taken(Orphaning, s, steps))
            && (s'.pc == Crashed <==> s.pc == Crashed || Taken(Crashing, s, steps))
            && (s'.pc == Stopped || s'.pc == Crashed <==>
                s.pc == Stopped || s.pc == Crashed || Taken(Stopping, s, steps))
    decreases |steps|
  {
    hide StoreInv, Apply, Enabled, Leads;
    if steps != [] {
      StepKeepsStoreInv(s, steps[0]);
      ExitStep(s, steps[0]);
      CrashNeedsStop(s, steps[0]);
      ExitsAre(Apply(s, steps[0]), steps[1..]);
    }
  }

  lemma CrashNeedsStop(s: State, step: Step)
    ensures Leads(Crashing, s, step) ==> s.pc == Stopped
  {
  }

  /**
    On every run: the creation is orphaned, the task refused or the process crashed exactly when a step of
    the run met the guard of that way out, and the task has stopped exactly when it came to its last
    update or event without a crash.
   */
  lemma HowATaskEnds(steps: seq<Step>)
    requires Possible(START, steps)
    ensures var pc := After(START, steps).pc;
            && (pc == Refused <==> Taken(Refusing, START, steps))
            && (pc == Orphaned <==> Taken(Orphaning, START, steps))
            && (pc == Crashed <==> Taken(Crashing, START, steps))
            && (pc == Stopped <==> Taken(Stopping, START, steps) && !Taken(Crashing, START, steps))
  {
    StartInv();
    ExitsAre(START, steps);
  }

  /** There is no other way to come to rest: anywhere else the code, or a send of its event, can go on. */
  lemma NoOtherEnd(steps: seq<Step>) returns (next: Step)
    requires Possible(START, steps) && !HasLeft(After(START, steps).pc)
    ensures Enabled(After(START, steps), next)
    ensures next.Publish? || next.Send? || next.SendToClosed? || next.UpdateStore? || next.PlannerReturns?
  {
    StartInv();
    RunKeepsInv(START, steps);
    hide Possible, After;
    next := NextStep(After(START, steps));
  }

  lemma NextStep(s: State) returns (next: Step)
    requires Inv(s) && !HasLeft(s.pc)
    ensures Enabled(s, next)
    ensures next.Publish? || next.Send? || next.SendToClosed? || next.UpdateStore? || next.PlannerReturns?
  {
    if D.Busy(s.bus) {
      var c :| c in s.bus.sending.value.todo;
      next := if s.bus.inboxes[c].channel.closed then SendToClosed(c, false) else Send(c);
    } else {
      next := match s.pc
        case Created => Publish(Progress, "")
        case Started => Publish(Progress, "")
        case Calling => PlannerReturns(PlannerResult.Plan)
        case Planning => PlannerReturns(PlannerResult.Plan)
        case Finishing => Publish(Done, "")
        case Erred => Publish(Error, "")
        case Reporting => Publish(Error, "")
        case _ => UpdateStore(Fine);
    }
  }

  /**
    If the running update reports an error the task never ends: whatever happens afterwards, nothing more
    is published, the stored status stays as it is, and there is no terminal event.
   */
  lemma RefusedTaskNeverEnds(steps: seq<Step>, more: seq<Step>)
    requires Possible(START, steps) && After(START, steps).pc == Refused
    requires Possible(After(START, steps), more)
    ensures var s, s' := After(START, steps), After(After(START, steps), more);
            && s'.pc == Refused && s'.store == s.store && !Finished(s.store)
            && s'.bus.log == s.bus.log && NoneTerminal(s.bus.log)
  {
    StartInv();
    RunKeepsInv(START, steps);
    NothingMore(After(START, steps), more);
  }

  lemma {:induction false} NothingMore(s: State, steps: seq<Step>)
    requires StoreInv(s) && s.pc == Refused && Possible(s, steps)
    ensures After(s, steps).pc == Refused && After(s, steps).store == s.store && After(s, steps).bus.log == s.bus.log
    decreases |steps|
  {
    if steps != [] {
      RefusedStep(s, steps[0]);
      hide StoreInv, Apply, Enabled;
      NothingMore(Apply(s, steps[0]), steps[1..]);
    }
  }

  lemma RefusedStep(s: State, step: Step)
    requires StoreInv(s) && s.pc == Refused && Enabled(s, step)
    ensures var s' := Apply(s, step); StoreInv(s') && s'.pc == Refused && s'.store == s.store && s'.bus.log == s.bus.log
  {
  }

  // ---------------------------------------------------------------- a task that ends twice

  lemma {:induction false} RunsCompose(s: State, a: seq<Step>, b: seq<Step>)
    requires Possible(s, a) && Possible(After(s, a), b)
    ensures Possible(s, a + b) && After(s, a + b) == After(After(s, a), b)
    decreases |a|
  {
    hide Apply, Enabled;
    if a == [] {
      assert a + b == b;
    } else {
      RunsCompose(Apply(s, a[0]), a[1..], b);
      assert (a + b)[0] == a[0] && (a + b)[1..] == a[1..] + b;
    }
  }

  /** One step more at the end of a run. */
  lemma Then(steps: seq<Step>, step: Step) returns (more: seq<Step>)
    requires Possible(START, steps) && Enabled(After(START, steps), step)
    ensures Possible(START, more) && After(START, more) == Apply(After(START, steps), step)
  {
    hide Apply, Enabled;
    more := steps + [step];
    RunsCompose(START, steps, [step]);
  }

  /** A planner at work, with reader 1 listening. */
  lemma ReaderListens() returns (steps: seq<Step>)
    ensures Possible(START, steps)
    ensures var s := After(START, steps);
            && s.pc == Calling && s.store == Running && !s.late && OnlyReader(s) && !D.Busy(s.bus)
  {
    steps := PlannerWorks();
    hide Possible, After;
    steps := Then(steps, AskStatus(1));
    steps := Then(steps, Join(1));
  }

  lemma PlannerWorks() returns (steps: seq<Step>)
    ensures Possible(START, steps)
    ensures var s := After(START, steps);
            && s.pc == Calling && s.store == Running && s.readers == map[] && !s.late && !D.Busy(s.bus)
            && s.bus.topic.subscribers == {} && s.bus.inboxes == map[]
  {
    hide Possible, After;
    NoSteps();
    steps := Then([], Publish(Progress, ""));
    steps := Then(steps, UpdateStore(Fine));
    steps := Then(steps, Publish(Progress, ""));
  }

  lemma NoSteps()
    ensures Possible(START, []) && After(START, []) == START
  {
  }

  /** Reader 1 is listening, and the only one. */
  ghost predicate OnlyReader(s: State) {
    s.readers == map[1 := Streaming] && s.bus.topic.subscribers == {1} && 1 in s.bus.inboxes
  }

  /** An event is published, and the reader closes its channel between its snapshot and its send. */
  lemma LeavesInBetween(steps: seq<Step>, kind: EventType) returns (more: seq<Step>)
    requires Possible(START, steps)
    requires var s := After(START, steps); OnlyReader(s) && Enabled(s, Publish(kind, ""))
    ensures Possible(START, more)
    ensures var s, s' := After(START, steps), After(START, more); var pc := AfterPublish(s.pc, kind).value;
            && s'.pc == AfterPanic(pc, false) && s'.store == s.store && s'.late == (s.late || pc.Ending?)
            && s'.readers.Keys == {1}
            && !D.Busy(s'.bus) && s'.bus.log == s.bus.log + [Stamped(s.bus.topic, TaskEvent(kind, "", "", 0))]
  {
    hide Possible, After, AfterPanic;
    more := Then(steps, Publish(kind, ""));
    more := Then(more, GoAway(1));
    more := Then(more, Close(1));
    more := Then(more, SendToClosed(1, false));
  }

  /** The plan succeeds; the reader closes its channel between the snapshot and the send of the done event. */
  lemma ReaderLeavesInBetween() returns (steps: seq<Step>)
    ensures Possible(START, steps)
    ensures var s := After(START, steps);
            && s.pc == Recovering && s.store == Running && s.late && !D.Busy(s.bus) && s.readers.Keys == {1}
            && s.bus.log != [] && s.bus.log[|s.bus.log| - 1].kind.Done?
  {
    steps := ReaderListens();
    hide Possible, After;
    steps := Then(steps, PlannerReturns(Plan));
    steps := LeavesInBetween(steps, Done);
  }

  predicate EndsDoneThenError(events: seq<TaskEvent>) {
    |events| >= 2 && events[|events| - 2].kind.Done? && events[|events| - 1].kind.Error?
  }

  /**
    It can happen that a task ends twice: a plan succeeds, and a reader closes its channel after the
    snapshot of the done event and before the send. The panic makes runTask store the task as failed
    and publish an error as well.
   */
  lemma LeavingReaderEndsTheTaskTwice() returns (steps: seq<Step>)
    ensures Possible(START, steps)
    ensures var s := After(START, steps);
            && s.pc == Stopped && s.store == Failed && s.late && 2 !in s.readers
            && EndsDoneThenError(s.bus.log)
  {
    steps := ReaderLeavesInBetween();
    hide Possible, After;
    ghost var n := |After(START, steps).bus.log|;
    steps := Then(steps, UpdateStore(Fine));
    steps := Then(steps, Publish(Error, ""));
    var log := After(START, steps).bus.log;
    assert log[n - 1].kind.Done? && log[n].kind.Error?;
  }

  /** And then it can happen that a reader of the failed task is replayed both, a done and an error event. */
  lemma LateReaderIsReplayedBoth() returns (steps: seq<Step>)
    ensures Possible(START, steps)
    ensures var s := After(START, steps);
            && 2 in s.readers && s.readers[2].Replayed? && s.store == Failed
            && EndsDoneThenError(s.readers[2].output)
  {
    steps := LeavingReaderEndsTheTaskTwice();
    hide Possible, After;
    steps := Then(steps, AskStatus(2));
    EndsTwiceWhenLate(steps);
    steps := Then(steps, ReplayHistory(2));
  }

  lemma EndsTwiceWhenLate(steps: seq<Step>)
    requires Possible(START, steps)
    requires var s := After(START, steps); s.pc == Stopped && s.late
    ensures var s := After(START, steps);
            && EndsTwice(s.bus.log) && s.bus.topic.history == LastOf(s.bus.log, EVENT_HISTORY_LIMIT)
            && Replay(s.bus.topic.history, s.store) == s.bus.topic.history
  {
    StartInv();
    RunKeepsInv(START, steps);
    hide Possible, After;
    TwiceReplayed(After(START, steps).bus.log, After(START, steps).bus.topic.history, After(START, steps).store);
  }

  // ---------------------------------------------------------------- a panic that nothing recovers

  /**
    It can happen that the whole process goes down: the planner panics, and a reader closes its channel
    after the snapshot of the recover function's error event and before the send.
   */
  lemma LeavingReaderCrashesTheProcess() returns (steps: seq<Step>)
    ensures Possible(START, steps)
    ensures After(START, steps).pc == Crashed && After(START, steps).store == Failed
  {
    steps := ReaderListens();
    hide Possible, After;
    steps := Then(steps, PlannerReturns(PlannerPanic));
    steps := Then(steps, UpdateStore(Fine));
    steps := LeavesInBetween(steps, Error);
  }

  /**
    It can happen that a created task is never started: a reader who was given its id by another call
    closes its channel after the snapshot of the creation's event and before the send.
   */
  lemma LeavingReaderOrphansTheTask() returns (steps: seq<Step>)
    ensures Possible(START, steps)
    ensures After(START, steps).pc == Orphaned && After(START, steps).store == Pending
  {
    hide Possible, After;
    NoSteps();
    steps := Then([], AskStatus(1));
    steps := Then(steps, Join(1));
    steps := LeavesInBetween(steps, Progress);
  }
}
