/**
  internal/travel/task_cache.go with many calls at once: every access to the store of record or to the
  cache is a step of its own, may fail on its own, and cached entries may vanish at any time.
 */
module TaskCacheRuns {
  import opened Wrappers
  import opened TaskStore
  import opened TaskCache
  import TS = TaskStream

  type CallId = nat

  datatype Query = Get(id: string) | FindByHash(hash: string) | Create(task: Task) | Update(task: Task)

  /** What a call does next. */
  datatype Pc =
    | AskCache
    | Confirm(id: string)
    | AskAuthority
    | PutHash(task: Task, answer: Answer)
    | PutTask(task: Task, answer: Answer)
    | Done(answer: Answer)

  /** `begin` is the number of the state of the store of record in which the call began. */
  datatype Call = Call(query: Query, begin: nat, pc: Pc)

  /**
    `history` holds every state the store of record has been in. `rewritten` are the ids of finished
    tasks that were overwritten by something else, `shared` the hashes that were given to another task.
   */
  datatype State = State(
    history: seq<Authority>,
    tasks: map<string, Task>,
    ids: map<string, string>,
    calls: map<CallId, Call>,
    rewritten: set<string>,
    shared: set<string>)

  const START := State([Authority(map[], map[])], map[], map[], map[], {}, {})

  datatype Fault = Fine | Fails(kept: bool) // `kept`: a write was made although it reported an error

  datatype Step =
    | Begin(call: CallId, query: Query)
    | Go(call: CallId, fault: Fault)
    | Forget(id: string)
    | ForgetHash(hash: string)

  function Now(s: State): Authority
    requires s.history != []
  {
    s.history[|s.history| - 1]
  }

  function StoreTask(s: State, task: Task): State
    requires s.history != []
  {
    var a := Now(s);
    s.(history := s.history + [Storing(a, task)],
       rewritten := s.rewritten + (if task.id in a.tasks && IsTerminal(a.tasks[task.id].status)
           && a.tasks[task.id] != task
                                   then {task.id} else {}),
       shared := s.shared + (if task.requestHash in a.index && a.index[task.requestHash] != task.id
                             then {task.requestHash} else {}))
  }

  /** A task that was found is cached, then returned. */
  function Remember(found: Option<Task>): Pc {
    if found.Some? then PutHash(found.value, Found(found.value)) else Done(NotFound)
  }

  function AskingAuthority(s: State, query: Query, fault: Fault): (State, Pc)
    requires s.history != []
  {
    match query
    case Get(id) => (s, if fault.Fine? then Remember(Lookup(Now(s), id)) else Done(Error))
    case FindByHash(h) => (s, if fault.Fine? then Remember(LookupByHash(Now(s), h)) else Done(Error))
    case Create(task) =>
      if fault.Fine? then (StoreTask(s, task), PutHash(task, Accepted))
      else (if fault.kept then StoreTask(s, task) else s, Done(Error))
    case Update(task) =>
      if fault.Fine? then
        if task.id in Now(s).tasks then (StoreTask(s, task), PutHash(task, Accepted)) else (s, Done(NotFound))
      else (if fault.kept && task.id in Now(s).tasks then StoreTask(s, task) else s, Done(Error))
  }

  function Going(s: State, query: Query, pc: Pc, fault: Fault): (State, Pc)
    requires s.history != [] && !pc.Done?
  {
    match pc
    case AskCache =>
      (match query
       case Get(id) =>
         if fault.Fine? && id in s.tasks && IsTerminal(s.tasks[id].status) then (s, Done(Found(s.tasks[id])))
         else (s, AskAuthority)
       case FindByHash(h) => if fault.Fine? && h in s.ids then (s, Confirm(s.ids[h])) else (s, AskAuthority)
       case _ => (s, AskAuthority))
    case Confirm(id) =>
      if !fault.Fine? then (s, Done(Error))
      else if id in Now(s).tasks then (s, Remember(Lookup(Now(s), id)))
      else (s, AskAuthority)
    case AskAuthority => AskingAuthority(s, query, fault)
    case PutHash(task, answer) =>
      (if fault.Fine? then s.(ids := WithHash(s.ids, task)) else s, PutTask(task, answer))
    case PutTask(task, answer) =>
      (if fault.Fine? then s.(tasks := WithTask(s.tasks, task)) else s, Done(answer))
  }

  predicate Enabled(s: State, step: Step) {
    && s.history != []
    && (step.Begin? ==> step.call !in s.calls)
    && (step.Go? ==> step.call in s.calls && !s.calls[step.call].pc.Done?)
  }

  function Apply(s: State, step: Step): State
    requires Enabled(s, step)
  {
    match step
    case Begin(c, query) => s.(calls := s.calls[c := Call(query, |s.history| - 1, AskCache)])
    case Go(c, fault) =>
      var (s1, pc) := Going(s, s.calls[c].query, s.calls[c].pc, fault);
      s1.(calls := s.calls[c := s.calls[c].(pc := pc)])
    case Forget(id) => s.(tasks := s.tasks - {id})
    case ForgetHash(h) => s.(ids := s.ids - {h})
  }

  ghost predicate Possible(s: State, steps: seq<Step>)
    decreases |steps|
  {
    steps == [] || (Enabled(s, steps[0]) && Possible(Apply(s, steps[0]), steps[1..]))
  }

  ghost function After(s: State, steps: seq<Step>): State
    requires Possible(s, steps)
    decreases |steps|
  {
    if steps == [] then s else After(Apply(s, steps[0]), steps[1..])
  }

  // ---------------------------------------------------------------- what holds in every state

  /** The store of record gave this answer in some state it was in since number `begin`. */
  ghost predicate Answered(s: State, begin: nat, query: Query, answer: Answer) {
    exists k | begin <= k < |s.history| :: GivenBy(s.history[k], query, answer)
  }

  predicate GivenBy(a: Authority, query: Query, answer: Answer) {
    match query
    case Get(id) => answer == Told(Lookup(a, id))
    case FindByHash(h) => answer == Told(LookupByHash(a, h))
    case Create(task) => answer == Accepted && Lookup(a, task.id) == Some(task)
    case Update(task) =>
      if answer == Accepted then Lookup(a, task.id) == Some(task) else answer == NotFound && Lookup(a, task.id).None?
  }

  /** An answer is right, an error, or about a task that broke one of the two rules. */
  ghost predicate Justified(s: State, begin: nat, query: Query, answer: Answer) {
    || answer == Error
    || (query.Get? && query.id in s.rewritten)
    || (query.FindByHash? && query.hash in s.shared)
    || Answered(s, begin, query, answer)
  }

  ghost predicate HashOk(s: State, h: string, id: string)
    requires s.history != []
  {
    h in Now(s).index && (h in s.shared || Now(s).index[h] == id)
  }

  ghost predicate TaskOk(s: State, task: Task)
    requires s.history != []
  {
    task.id in Now(s).tasks
    && (IsTerminal(task.status) ==> task.id in s.rewritten || Now(s).tasks[task.id] == task)
  }

  ghost predicate CallOk(s: State, call: Call)
    requires s.history != []
  {
    && call.begin < |s.history|
    && match call.pc
       case AskCache => true
       case AskAuthority => true
       case Confirm(id) => call.query.FindByHash? && HashOk(s, call.query.hash, id)
       case PutHash(task, answer) =>
         HashOk(s, task.requestHash, task.id) && TaskOk(s, task) && Justified(s, call.begin, call.query, answer)
       case PutTask(task, answer) => TaskOk(s, task) && Justified(s, call.begin, call.query, answer)
       case Done(answer) => Justified(s, call.begin, call.query, answer)
  }

  ghost predicate AuthorityOk(s: State)
    requires s.history != []
  {
    && (forall h | h in Now(s).index :: Now(s).index[h] in Now(s).tasks)
    && (forall id | id in Now(s).tasks :: Now(s).tasks[id].id == id && HashOk(s, Now(s).tasks[id].requestHash, id))
  }

  ghost predicate CacheOk(s: State)
    requires s.history != []
  {
    && (forall id | id in s.tasks :: s.tasks[id].id == id && IsTerminal(s.tasks[id].status) && TaskOk(s, s.tasks[id]))
    && (forall h | h in s.ids :: HashOk(s, h, s.ids[h]))
  }

  ghost predicate Inv(s: State) {
    s.history != [] && AuthorityOk(s) && CacheOk(s) && (forall c | c in s.calls :: CallOk(s, s.calls[c]))
  }

  // ---------------------------------------------------------------- what a step changes

  /** The store of record may have moved on; nothing said about it before has become wrong. */
  ghost predicate Later(s: State, s': State)
    requires s.history != []
  {
    && s.history <= s'.history
    && s.rewritten <= s'.rewritten && s.shared <= s'.shared
    && (forall h, id | HashOk(s, h, id) :: HashOk(s', h, id))
    && (forall task | TaskOk(s, task) :: TaskOk(s', task))
  }

  lemma CallLater(s: State, s': State, call: Call)
    requires s.history != [] && Later(s, s') && CallOk(s, call)
    ensures CallOk(s', call)
  {
  }

  lemma StoringKeepsHash(s: State, task: Task, h: string, id: string)
    requires s.history != []
    ensures HashOk(s, h, id) ==> HashOk(StoreTask(s, task), h, id)
    ensures HashOk(StoreTask(s, task), task.requestHash, task.id)
  {
  }

  lemma StoringKeepsTask(s: State, task: Task, other: Task)
    requires s.history != []
    ensures TaskOk(s, other) ==> TaskOk(StoreTask(s, task), other)
    ensures TaskOk(StoreTask(s, task), task)
  {
  }

  /** Storing a task; the two sets take the blame for what it invalidates. */
  lemma {:induction false} StoringIsLater(s: State, task: Task)
    requires s.history != [] && AuthorityOk(s)
    ensures var s' := StoreTask(s, task); Later(s, s') && AuthorityOk(s')
  {
    hide HashOk, TaskOk, AuthorityOk;
    var s' := StoreTask(s, task);
    forall h, id
      ensures HashOk(s, h, id) ==> HashOk(s', h, id)
    {
      StoringKeepsHash(s, task, h, id);
    }
    forall other
      ensures TaskOk(s, other) ==> TaskOk(s', other)
    {
      StoringKeepsTask(s, task, other);
    }
    StoringKeepsAuthority(s, task);
  }

  lemma {:induction false} StoringKeepsAuthority(s: State, task: Task)
    requires s.history != [] && AuthorityOk(s)
    ensures AuthorityOk(StoreTask(s, task))
  {
    var s' := StoreTask(s, task);
    assert Now(s') == Storing(Now(s), task);
    forall h, id
      ensures HashOk(s, h, id) ==> HashOk(s', h, id)
    {
      StoringKeepsHash(s, task, h, id);
    }
    StoringKeepsHash(s, task, task.requestHash, task.id);
    hide HashOk, StoreTask;
  }

  lemma {:induction false} StoringKeepsCache(s: State, task: Task)
    requires s.history != [] && AuthorityOk(s) && CacheOk(s)
    ensures CacheOk(StoreTask(s, task))
  {
    StoringIsLater(s, task);
    hide TaskOk, HashOk;
  }

  ghost predicate Keeps(s: State, call: Call, moved: (State, Pc))
    requires s.history != []
  {
    && Later(s, moved.0) && AuthorityOk(moved.0) && CacheOk(moved.0)
    && CallOk(moved.0, call.(pc := moved.1))
  }

  lemma NothingStored(s: State)
    requires s.history != []
    ensures Later(s, s)
  {
  }

  lemma {:induction false} ConfirmingKeeps(s: State, call: Call, fault: Fault)
    requires Inv(s) && CallOk(s, call) && call.pc.Confirm?
    ensures Keeps(s, call, Going(s, call.query, call.pc, fault))
  {
    NothingStored(s);
    hide Later, CacheOk;
    if fault.Fine? && call.pc.id in Now(s).tasks {
    }
  }

  lemma LookingUpKeeps(s: State, call: Call, fault: Fault)
    requires Inv(s) && CallOk(s, call) && call.pc == AskAuthority && (call.query.Get? || call.query.FindByHash?)
    ensures Keeps(s, call, AskingAuthority(s, call.query, fault))
  {
  }

  lemma WrittenIsOk(s: State, call: Call)
    requires s.history != [] && AuthorityOk(s) && CallOk(s, call) && (call.query.Create? || call.query.Update?)
    ensures var s' := StoreTask(s, call.query.task);
            CallOk(s', call.(pc := PutHash(call.query.task, Accepted))) && CallOk(s', call.(pc := Done(Error)))
  {
  }

  lemma NotWrittenIsOk(s: State, call: Call)
    requires s.history != [] && CallOk(s, call) && (call.query.Create? || call.query.Update?)
    ensures CallOk(s, call.(pc := Done(Error)))
    ensures call.query.Update? && call.query.task.id !in Now(s).tasks ==> CallOk(s, call.(pc := Done(NotFound)))
  {
  }

  lemma {:induction false} WritingKeeps(s: State, call: Call, fault: Fault)
    requires Inv(s) && CallOk(s, call) && call.pc == AskAuthority && (call.query.Create? || call.query.Update?)
    ensures Keeps(s, call, AskingAuthority(s, call.query, fault))
  {
    hide StoreTask, Later, AuthorityOk, CacheOk, CallOk;
    NothingStored(s);
    StoringIsLater(s, call.query.task);
    StoringKeepsCache(s, call.query.task);
    WrittenIsOk(s, call);
    NotWrittenIsOk(s, call);
  }

  lemma {:induction false} CachingKeeps(s: State, call: Call, fault: Fault)
    requires Inv(s) && CallOk(s, call) && (call.pc.PutHash? || call.pc.PutTask?)
    ensures Keeps(s, call, Going(s, call.query, call.pc, fault))
  {
    hide Justified, Later, AuthorityOk;
    var s' := Going(s, call.query, call.pc, fault).0;
    SameStore(s, s');
    assert s'.history == s.history && s'.rewritten == s.rewritten && s'.shared == s.shared;
    assert forall h, id :: HashOk(s', h, id) <==> HashOk(s, h, id);
    assert forall task :: TaskOk(s', task) <==> TaskOk(s, task);
    hide HashOk, TaskOk;
  }

  lemma {:induction false} GoingKeeps(s: State, call: Call, fault: Fault)
    requires Inv(s) && CallOk(s, call) && !call.pc.Done?
    ensures Keeps(s, call, Going(s, call.query, call.pc, fault))
  {
    assert call.pc == AskAuthority ==>
        Going(s, call.query, call.pc, fault) == AskingAuthority(s, call.query, fault);
    hide Inv, CallOk, Keeps, Going, AskingAuthority;
    if call.pc == AskCache {
    } else if call.pc.Confirm? {
      ConfirmingKeeps(s, call, fault);
    } else if call.pc.PutHash? || call.pc.PutTask? {
      CachingKeeps(s, call, fault);
    } else if call.query.Get? || call.query.FindByHash? {
      LookingUpKeeps(s, call, fault);
    } else {
      WritingKeeps(s, call, fault);
    }
  }

  /** What is cached keeps being right when entries vanish. */
  lemma FewerCached(s: State, s': State)
    requires s.history != [] && s'.history == s.history && s'.rewritten == s.rewritten && s'.shared == s.shared
    requires CacheOk(s) && s'.tasks.Items <= s.tasks.Items && s'.ids.Items <= s.ids.Items
    ensures CacheOk(s')
  {
    forall id | id in s'.tasks
      ensures s'.tasks[id].id == id && IsTerminal(s'.tasks[id].status) && TaskOk(s', s'.tasks[id])
    {
      assert (id, s'.tasks[id]) in s'.tasks.Items;
      assert TaskOk(s, s.tasks[id]);
    }
    forall h | h in s'.ids
      ensures HashOk(s', h, s'.ids[h])
    {
      assert (h, s'.ids[h]) in s'.ids.Items;
      assert HashOk(s, h, s.ids[h]);
    }
  }

  lemma SameStore(s: State, s': State)
    requires s.history != [] && s'.history == s.history && s'.rewritten == s.rewritten && s'.shared == s.shared
    ensures Later(s, s')
    ensures AuthorityOk(s) ==> AuthorityOk(s')
    ensures CacheOk(s) && s'.tasks.Items <= s.tasks.Items && s'.ids.Items <= s.ids.Items ==> CacheOk(s')
    ensures forall call | CallOk(s, call) :: CallOk(s', call)
  {
    assert forall h, id :: HashOk(s', h, id) <==> HashOk(s, h, id);
    assert forall task :: TaskOk(s', task) <==> TaskOk(s, task);
    assert Later(s, s') && Now(s) == Now(s');
    hide HashOk, TaskOk, Later;
    if CacheOk(s) && s'.tasks.Items <= s.tasks.Items && s'.ids.Items <= s.ids.Items {
      FewerCached(s, s');
    }
    forall call | CallOk(s, call)
      ensures CallOk(s', call)
    {
      CallLater(s, s', call);
    }
  }

  lemma {:induction false} StepKeepsInv(s: State, step: Step)
    requires Inv(s) && Enabled(s, step)
    ensures Inv(Apply(s, step))
    ensures s.history <= Apply(s, step).history
  {
    hide CallOk, AuthorityOk, CacheOk, Going;
    var s' := Apply(s, step);
    if step.Go? {
      var call := s.calls[step.call];
      var moved := Going(s, call.query, call.pc, step.fault);
      GoingKeeps(s, call, step.fault);
      SameStore(moved.0, s');
      forall c | c in s'.calls
        ensures CallOk(s', s'.calls[c])
      {
        if c != step.call {
          CallLater(s, moved.0, s.calls[c]);
        }
      }
    } else {
      SameStore(s, s');
      if step.Begin? {
        NewCallIsOk(s', step.query);
      }
    }
  }

  lemma NewCallIsOk(s: State, query: Query)
    requires s.history != []
    ensures CallOk(s, Call(query, |s.history| - 1, AskCache))
  {
  }

  lemma {:induction false} RunKeepsInv(s: State, steps: seq<Step>)
    requires Inv(s) && Possible(s, steps)
    ensures Inv(After(s, steps))
    decreases |steps|
  {
    hide Inv, Apply, Enabled;
    if steps != [] {
      StepKeepsInv(s, steps[0]);
      RunKeepsInv(Apply(s, steps[0]), steps[1..]);
    }
  }

  // ---------------------------------------------------------------- for every run

  lemma FromTheStart(steps: seq<Step>)
    requires Possible(START, steps)
    ensures Inv(After(START, steps))
  {
    RunKeepsInv(START, steps);
  }

  /**
    On every run the cache holds finished tasks only. Each is what the store of record holds, unless
    that task was rewritten after it had finished; and each cached hash leads where the store of record
    leads, unless the hash was given to a second task.
   */
  lemma CacheAgrees(steps: seq<Step>)
    requires Possible(START, steps)
    ensures var s := After(START, steps);
            && s.history != []
            && (forall id | id in s.tasks ::
                  IsTerminal(s.tasks[id].status) && (id in s.rewritten || Lookup(Now(s), id) == Some(s.tasks[id])))
            && (forall h | h in s.ids ::
                  h in s.shared || (LookupByHash(Now(s), h).Some? && LookupByHash(Now(s), h).value.id == s.ids[h]))
            && (s.rewritten == {} && s.shared == {} ==> Agrees(Now(s), s.tasks, s.ids))
  {
    FromTheStart(steps);
    hide Possible, After;
  }

  /**
    On every run, whatever a call was answered that is not an error is an answer the store of record
    would have given at some moment between the beginning and the end of the call, unless the task asked
    for was rewritten after it had finished, or the hash asked for was given to a second task.
   */
  lemma AnswersAreTheAuthoritys(steps: seq<Step>, c: CallId)
    requires Possible(START, steps)
    requires c in After(START, steps).calls && After(START, steps).calls[c].pc.Done?
    ensures var s := After(START, steps);
            var call := s.calls[c];
            Justified(s, call.begin, call.query, call.pc.answer)
  {
    FromTheStart(steps);
    hide Possible, After;
    var s := After(START, steps);
    assert CallOk(s, s.calls[c]);
  }

  // ---------------------------------------------------------------- with the updates of this program

  /** The statuses that runTask stores. */
  function StatusOf(status: TS.Status): Status {
    match status
    case Pending => Pending
    case Running => Running
    case Succeeded => Succeeded
    case Failed => Failed
  }

  /** Some run of runTask comes to update a task stored with the one status to the other. */
  ghost predicate UpdatedByRunTask(before: Status, after: Status) {
    exists steps, outcome | TS.Possible(TS.START, steps)
        && TS.Enabled(TS.After(TS.START, steps), TS.UpdateStore(outcome)) ::
      && before == StatusOf(TS.After(TS.START, steps).store)
      && after == StatusOf(TS.Apply(TS.After(TS.START, steps), TS.UpdateStore(outcome)).store)
  }

  lemma RunTaskUpdatesNoFinishedTask(before: Status, after: Status)
    requires UpdatedByRunTask(before, after)
    ensures !IsTerminal(before)
  {
    var steps, outcome :| TS.Possible(TS.START, steps) && TS.Enabled(TS.After(TS.START, steps), TS.UpdateStore(outcome))
                          && before == StatusOf(TS.After(TS.START, steps).store);
    TS.FinishedTaskIsNotUpdated(steps, outcome);
  }

  /** Tasks are created under new ids by CreateTask, and updated by runTask alone. */
  ghost predicate OfThisProgram(s: State, step: Step)
    requires Enabled(s, step)
  {
    step.Go? && s.calls[step.call].pc == AskAuthority ==>
      match s.calls[step.call].query
      case Create(task) => task.id !in Now(s).tasks
      case Update(task) => task.id in Now(s).tasks ==> UpdatedByRunTask(Now(s).tasks[task.id].status, task.status)
      case _ => true
  }

  ghost predicate AllOfThisProgram(s: State, steps: seq<Step>)
    requires Possible(s, steps)
    decreases |steps|
  {
    steps != [] ==> OfThisProgram(s, steps[0]) && AllOfThisProgram(Apply(s, steps[0]), steps[1..])
  }

  lemma NothingRewritten(s: State, step: Step)
    requires Enabled(s, step) && OfThisProgram(s, step)
    ensures Apply(s, step).rewritten == s.rewritten
  {
    hide UpdatedByRunTask, WithHash, WithTask;
    if step.Go? && s.calls[step.call].pc == AskAuthority && s.calls[step.call].query.Update? {
      var task := s.calls[step.call].query.task;
      if task.id in Now(s).tasks {
        RunTaskUpdatesNoFinishedTask(Now(s).tasks[task.id].status, task.status);
      }
    }
  }

  lemma {:induction false} NothingRewrittenInRun(s: State, steps: seq<Step>)
    requires Possible(s, steps) && AllOfThisProgram(s, steps)
    ensures After(s, steps).rewritten == s.rewritten
    decreases |steps|
  {
    hide Enabled, Apply, OfThisProgram;
    if steps != [] {
      NothingRewritten(s, steps[0]);
      NothingRewrittenInRun(Apply(s, steps[0]), steps[1..]);
    }
  }

  /**
    On every run in which the tasks are those of this program, created under new ids and updated by
    runTask: every cached task is what the store of record holds, and every answer to a reader of a task
    that is not an error is one the store of record would have given during the call.
   */
  lemma CachedTasksAreRight(steps: seq<Step>, c: CallId)
    requires Possible(START, steps) && AllOfThisProgram(START, steps)
    ensures var s := After(START, steps);
            s.history != [] && forall id | id in s.tasks :: Lookup(Now(s), id) == Some(s.tasks[id])
    ensures var s := After(START, steps);
            c in s.calls && s.calls[c].query.Get? && s.calls[c].pc.Done? && s.calls[c].pc.answer != Error ==>
              Answered(s, s.calls[c].begin, s.calls[c].query, s.calls[c].pc.answer)
  {
    NothingRewrittenInRun(START, steps);
    CacheAgrees(steps);
    var s := After(START, steps);
    if c in s.calls && s.calls[c].pc.Done? {
      AnswersAreTheAuthoritys(steps, c);
    }
  }

  // ---------------------------------------------------------------- a rewritten task, a hash with two tasks

  lemma {:induction false} RunsCompose(s: State, a: seq<Step>, b: seq<Step>)
    requires Possible(s, a) && Possible(After(s, a), b)
    ensures Possible(s, a + b) && After(s, a + b) == After(After(s, a), b)
    decreases |a|
  {
    hide Apply, Enabled;
    if a == [] {
      assert a + b == b;
    } else {
      RunsCompose(Apply(s, a[0]), a[1..], b);
      assert (a + b)[0] == a[0] && (a + b)[1..] == a[1..] + b;
    }
  }

  /** One step more at the end of a run that has come to `s`. */
  lemma Then(steps: seq<Step>, s: State, step: Step, s': State) returns (more: seq<Step>)
    requires Possible(START, steps) && After(START, steps) == s && Enabled(s, step) && Apply(s, step) == s'
    ensures Possible(START, more) && After(START, more) == s'
  {
    hide Apply, Enabled;
    more := steps + [step];
    assert Possible(s, [step]) && After(s, [step]) == s' by {
      assert [step][1..] == [];
    }
    RunsCompose(START, steps, [step]);
  }

  /** A new call goes through its first step, which finds nothing in the cache, and through the second. */
  lemma WriteThrough(steps: seq<Step>, s: State, c: CallId, query: Query) returns (more: seq<Step>, s': State)
    requires Possible(START, steps) && After(START, steps) == s && s.history != [] && c !in s.calls
    requires query.Create? || (query.Update? && query.task.id in Now(s).tasks)
    ensures Possible(START, more) && After(START, more) == s'
    ensures var call := Call(query, |s.history| - 1, PutHash(query.task, Accepted));
            s' == StoreTask(s, query.task).(calls := s.calls[c := call])
  {
    hide Possible, After, StoreTask;
    var s1 := s.(calls := s.calls[c := Call(query, |s.history| - 1, AskCache)]);
    more := Then(steps, s, Begin(c, query), s1);
    var s2 := s.(calls := s.calls[c := Call(query, |s.history| - 1, AskAuthority)]);
    assert s1.calls[c := Call(query, |s.history| - 1, AskAuthority)] == s2.calls;
    more := Then(more, s1, Go(c, Fine), s2);
    StoringKeepsCalls(s, s2, query.task);
    s' := StoreTask(s, query.task).(calls := s.calls[c := Call(query, |s.history| - 1, PutHash(query.task, Accepted))]);
    assert s2.calls[c := Call(query, |s.history| - 1, PutHash(query.task, Accepted))] == s'.calls;
    more := Then(more, s2, Go(c, Fine), s');
  }

  lemma StoringKeepsCalls(s: State, s': State, task: Task)
    requires s.history != [] && s' == s.(calls := s'.calls)
    ensures StoreTask(s', task) == StoreTask(s, task).(calls := s'.calls)
  {
  }

  /** A call that has stored a finished task caches it. */
  lemma CachedAway(steps: seq<Step>, s: State, c: CallId, call: Call) returns (more: seq<Step>, s': State)
    requires Possible(START, steps) && After(START, steps) == s && s.history != []
    requires s.calls == map[c := call] && call.pc.PutHash? && IsTerminal(call.pc.task.status)
    ensures Possible(START, more) && After(START, more) == s'
    ensures s' == s.(ids := WithHash(s.ids, call.pc.task), tasks := WithTask(s.tasks, call.pc.task),
                     calls := map[c := call.(pc := Done(call.pc.answer))])
  {
    hide Possible, After, WithHash, WithTask;
    var s1 := s.(ids := WithHash(s.ids, call.pc.task),
                 calls := map[c := call.(pc := PutTask(call.pc.task, call.pc.answer))]);
    more := Then(steps, s, Go(c, Fine), s1);
    s' := s1.(tasks := WithTask(s.tasks, call.pc.task), calls := map[c := call.(pc := Done(call.pc.answer))]);
    more := Then(more, s1, Go(c, Fine), s');
  }

  /**
    It can happen that a reader is told what the store of record no longer says: a finished task is
    rewritten, the cache misses the rewriting, and a reader who comes later is given the old task.
   */
  lemma RewrittenTaskStaysCached(id: string, hash: string, before: string, after: string) returns (steps: seq<Step>)
    requires id != "" && hash != ""
    ensures Possible(START, steps)
    ensures var s := After(START, steps);
            && 3 in s.calls && s.calls[3].query == Get(id)
            && s.calls[3].pc == Done(Found(Task(id, hash, Succeeded, before)))
            && s.calls[3].begin == |s.history| - 1
            && Lookup(Now(s), id) == Some(Task(id, hash, Failed, after))
  {
    hide Possible, After, StoreTask;
    var succeeded := Task(id, hash, Succeeded, before);
    var failed := Task(id, hash, Failed, after);
    var s;
    Nothing();
    StoredTask(START, succeeded);
    steps, s := WriteThrough([], START, 1, Create(succeeded));
    steps, s := CachedAway(steps, s, 1, s.calls[1]);
    StoredTask(s, failed);
    steps, s := WriteThrough(steps, s, 2, Update(failed));
    var s1 := s.(calls := s.calls[3 := Call(Get(id), |s.history| - 1, AskCache)]);
    steps := Then(steps, s, Begin(3, Get(id)), s1);
    steps := Then(steps, s1, Go(3, Fine), Apply(s1, Go(3, Fine)));
  }

  /**
    It can happen that a hash leads to a task that the store of record no longer gives for it: the hash is
    given a second task, the cache does not know yet, and a reader who comes later is given the first.
   */
  lemma SecondTaskOfAHashIsMissed(first: Task, second: Task) returns (steps: seq<Step>)
    requires IsTerminal(first.status) && first.id != "" && first.requestHash != ""
    requires second.requestHash == first.requestHash && second.id != first.id
    ensures Possible(START, steps)
    ensures var s := After(START, steps);
            && 3 in s.calls && s.calls[3].query == FindByHash(first.requestHash)
            && s.calls[3].pc == Done(Found(first))
            && s.calls[3].begin == |s.history| - 1
            && LookupByHash(Now(s), first.requestHash) == Some(second)
  {
    hide Possible, After, StoreTask;
    var h := first.requestHash;
    var s;
    Nothing();
    StoredTask(START, first);
    steps, s := WriteThrough([], START, 1, Create(first));
    steps, s := CachedAway(steps, s, 1, s.calls[1]);
    SecondTask(s, first, second);
    steps, s := WriteThrough(steps, s, 2, Create(second));
    var call := Call(FindByHash(h), |s.history| - 1, AskCache);
    steps, s := FoundThroughCache(steps, s, 3, call, first);
  }

  /** The first task is still there, and the hash leads to the second. */
  lemma SecondTask(s: State, first: Task, second: Task)
    requires s.history != [] && Lookup(Now(s), first.id) == Some(first) && second.id != first.id
    ensures var s' := StoreTask(s, second);
            && s'.history != [] && Lookup(Now(s'), first.id) == Some(first) && s'.ids == s.ids
            && LookupByHash(Now(s'), second.requestHash) == Some(second)
  {
  }

  /** A reader by hash is given the task of the cached id; caching it again fails. */
  lemma FoundThroughCache(steps: seq<Step>, s: State, c: CallId, call: Call, task: Task)
      returns (more: seq<Step>, s': State)
    requires Possible(START, steps) && After(START, steps) == s && s.history != [] && c !in s.calls
    requires call.query.FindByHash? && call.query.hash in s.ids && s.ids[call.query.hash] == task.id
    requires call == Call(call.query, |s.history| - 1, AskCache) && Lookup(Now(s), task.id) == Some(task)
    ensures Possible(START, more) && After(START, more) == s'
    ensures s' == s.(calls := s.calls[c := call.(pc := Done(Found(task)))])
  {
    hide Possible, After;
    var s1 := s.(calls := s.calls[c := call]);
    more := Then(steps, s, Begin(c, call.query), s1);
    var s2 := Moved(s, c, call, Confirm(task.id));
    more := Then(more, s1, Go(c, Fine), s2);
    var s3 := Moved(s, c, call, PutHash(task, Found(task)));
    more := Then(more, s2, Go(c, Fine), s3);
    var s4 := Moved(s, c, call, PutTask(task, Found(task)));
    more := Then(more, s3, Go(c, Fails(false)), s4);
    s' := Moved(s, c, call, Done(Found(task)));
    more := Then(more, s4, Go(c, Fails(false)), s');
  }

  function Moved(s: State, c: CallId, call: Call, pc: Pc): State {
    s.(calls := s.calls[c := call.(pc := pc)])
  }

  lemma StoredTask(s: State, task: Task)
    requires s.history != []
    ensures var s' := StoreTask(s, task);
            s'.history != [] && Lookup(Now(s'), task.id) == Some(task) && s'.tasks == s.tasks && s'.ids == s.ids
  {
  }

  lemma Nothing()
    ensures Possible(START, []) && After(START, []) == START
  {
  }
}
