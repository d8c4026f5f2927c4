/**
  internal/travel/task_cache.go: when a call through the cache fails, and what the cache spares the store
  of record.
 */
module TaskCacheUse {
  import opened Wrappers
  import opened TaskStore
  import opened TaskCache
  import opened TaskCacheRuns

  // ---------------------------------------------------------------- errors

  /** This step is an access of the call to the store of record, and fails. */
  predicate StoreFails(s: State, step: Step, c: CallId) {
    step.Go? && step.call == c && step.fault.Fails? && c in s.calls
    && (s.calls[c].pc == AskAuthority || s.calls[c].pc.Confirm?)
  }

  /** Some step of the run is one. */
  ghost predicate StoreFailed(s: State, steps: seq<Step>, c: CallId)
    requires Possible(s, steps)
    decreases |steps|
  {
    steps != [] && (StoreFails(s, steps[0], c) || StoreFailed(Apply(s, steps[0]), steps[1..], c))
  }

  predicate HasFailed(s: State, c: CallId) {
    c in s.calls && s.calls[c].pc == Done(Error)
  }

  /** A call that still has something to cache has an answer that is no error. */
  predicate NoErrorToCome(s: State, c: CallId) {
    c in s.calls ==>
      match s.calls[c].pc
      case PutHash(_, answer) => answer != Error
      case PutTask(_, answer) => answer != Error
      case _ => true
  }

  lemma FailsByStep(s: State, step: Step, c: CallId)
    requires Enabled(s, step) && NoErrorToCome(s, c)
    ensures NoErrorToCome(Apply(s, step), c)
    ensures HasFailed(Apply(s, step), c) <==> HasFailed(s, c) || StoreFails(s, step, c)
  {
  }

  lemma {:induction false} FailsInRun(s: State, steps: seq<Step>, c: CallId)
    requires Possible(s, steps) && NoErrorToCome(s, c)
    ensures HasFailed(After(s, steps), c) <==> HasFailed(s, c) || StoreFailed(s, steps, c)
    decreases |steps|
  {
    hide Enabled, Apply, NoErrorToCome, HasFailed, StoreFails;
    if steps != [] {
      FailsByStep(s, steps[0], c);
      FailsInRun(Apply(s, steps[0]), steps[1..], c);
    }
  }

  /**
    On every run: a call ends in an error if and only if one of its own accesses to the store of record
    failed. No failure of the cache makes a call fail.
   */
  lemma ErrorIffStoreFailed(steps: seq<Step>, c: CallId)
    requires Possible(START, steps)
    ensures HasFailed(After(START, steps), c) <==> StoreFailed(START, steps, c)
  {
    FailsInRun(START, steps, c);
  }

  // ---------------------------------------------------------------- what the cache is for

  /** One more step of call c, which takes it to `pc`. */
  lemma Moves(steps: seq<Step>, s: State, c: CallId, fault: Fault, s': State) returns (more: seq<Step>)
    requires Possible(START, steps) && After(START, steps) == s
    requires Enabled(s, Go(c, fault)) && Apply(s, Go(c, fault)) == s'
    ensures Possible(START, more) && After(START, more) == s'
    ensures more == steps + [Go(c, fault)]
  {
    hide Enabled, Apply;
    more := steps + [Go(c, fault)];
    var step := Go(c, fault);
    assert Possible(s, [step]) && After(s, [step]) == s' by {
      assert [step][1..] == [];
    }
    RunsCompose(START, steps, [step]);
  }

  /**
    In every reachable state: a task that is in the cache is answered to a new reader after a single access,
    to the cache, however the store of record fares.
   */
  lemma CachedTaskNeedsNoStore(steps: seq<Step>, c: CallId, id: string) returns (more: seq<Step>)
    requires Possible(START, steps) && c !in After(START, steps).calls && id in After(START, steps).tasks
    ensures more == steps + [Begin(c, Get(id))] + [Go(c, Fine)]
    ensures Possible(START, more)
    ensures c in After(START, more).calls
            && After(START, more).calls[c].pc == Done(Found(After(START, steps).tasks[id]))
  {
    CacheAgrees(steps);
    var s := After(START, steps);
    hide Possible, After;
    var s1 := s.(calls := s.calls[c := Call(Get(id), |s.history| - 1, AskCache)]);
    more := Begins(steps, s, c, Get(id));
    var s2 := s1.(calls := s1.calls[c := s1.calls[c].(pc := Done(Found(s.tasks[id])))]);
    more := Moves(more, s1, c, Fine, s2);
  }

  lemma Begins(steps: seq<Step>, s: State, c: CallId, query: Query) returns (more: seq<Step>)
    requires Possible(START, steps) && After(START, steps) == s && s.history != [] && c !in s.calls
    ensures more == steps + [Begin(c, query)]
    ensures Possible(START, more)
    ensures After(START, more) == s.(calls := s.calls[c := Call(query, |s.history| - 1, AskCache)])
  {
    more := steps + [Begin(c, query)];
    var step := Begin(c, query);
    assert Possible(s, [step]) && After(s, [step]) == Apply(s, step) by {
      assert [step][1..] == [];
    }
    RunsCompose(START, steps, [step]);
  }

  function At(s: State, c: CallId, pc: Pc): State
    requires c in s.calls
  {
    s.(calls := s.calls[c := s.calls[c].(pc := pc)])
  }

  /** A reader who does not find the task in the cache asks the store of record. */
  lemma AsksTheStore(steps: seq<Step>, s: State, c: CallId, id: string) returns (more: seq<Step>, s': State)
    requires Possible(START, steps) && After(START, steps) == s
    requires s.history != [] && c !in s.calls && id !in s.tasks && Lookup(Now(s), id).Some?
    ensures more == steps + [Begin(c, Get(id))] + [Go(c, Fine)] + [Go(c, Fine)]
    ensures Possible(START, more) && After(START, more) == s'
    ensures var task := Lookup(Now(s), id).value;
            s' == s.(calls := s.calls[c := Call(Get(id), |s.history| - 1, PutHash(task, Found(task)))])
  {
    hide Possible, After;
    var task := Lookup(Now(s), id).value;
    var s0 := s.(calls := s.calls[c := Call(Get(id), |s.history| - 1, AskCache)]);
    more := Begins(steps, s, c, Get(id));
    var s1 := At(s0, c, AskAuthority);
    more := Moves(more, s0, c, Fine, s1);
    s' := At(s1, c, PutHash(task, Found(task)));
    more := Moves(more, s1, c, Fine, s');
    assert s'.calls == s.calls[c := Call(Get(id), |s.history| - 1, PutHash(task, Found(task)))];
  }

  /** A call with a task to cache puts it there and answers. */
  lemma PutsAway(steps: seq<Step>, s: State, c: CallId) returns (more: seq<Step>, s': State)
    requires Possible(START, steps) && After(START, steps) == s && s.history != []
    requires c in s.calls && s.calls[c].pc.PutHash?
    ensures more == steps + [Go(c, Fine)] + [Go(c, Fine)]
    ensures Possible(START, more) && After(START, more) == s'
    ensures var task, answer := s.calls[c].pc.task, s.calls[c].pc.answer;
            && s'.history == s.history && s'.tasks == WithTask(s.tasks, task) && s'.ids == WithHash(s.ids, task)
            && c in s'.calls && s'.calls[c].pc == Done(answer)
  {
    hide Possible, After, WithTask, WithHash;
    var task, answer := s.calls[c].pc.task, s.calls[c].pc.answer;
    var s1 := At(s, c, PutTask(task, answer)).(ids := WithHash(s.ids, task));
    more := Moves(steps, s, c, Fine, s1);
    s' := At(s1, c, Done(answer)).(tasks := WithTask(s1.tasks, task));
    more := Moves(more, s1, c, Fine, s');
  }

  lemma FoundUnderItsId(steps: seq<Step>, id: string)
    requires Possible(START, steps) && After(START, steps).history != []
    requires Lookup(Now(After(START, steps)), id).Some?
    ensures Lookup(Now(After(START, steps)), id).value.id == id
  {
    FromTheStart(steps);
    hide Possible, After;
  }

  /**
    In every reachable state: reading a task that the cache does not have, with nothing failing, takes four
    accesses. It leaves a finished task there under its id and its hash, and of an unfinished one the hash.
   */
  lemma ReadingFillsTheCache(steps: seq<Step>, c: CallId, id: string) returns (more: seq<Step>)
    requires Possible(START, steps)
    requires var s := After(START, steps);
             s.history != [] && c !in s.calls && id !in s.tasks && Lookup(Now(s), id).Some?
    ensures more == steps + [Begin(c, Get(id))] + [Go(c, Fine)] + [Go(c, Fine)] + [Go(c, Fine)] + [Go(c, Fine)]
    ensures Possible(START, more)
    ensures var s, s' := After(START, steps), After(START, more); var task := Lookup(Now(s), id).value;
            && c in s'.calls && s'.calls[c].pc == Done(Found(task)) && s'.history == s.history
            && (task.requestHash != "" && id != "" ==> task.requestHash in s'.ids && s'.ids[task.requestHash] == id)
            && (id != "" && (task.status.Succeeded? || task.status.Failed? || task.status.Canceled?
                             || task.status.DeadLetter?) ==>
                  id in s'.tasks && s'.tasks[id] == task)
            && (task.status.Pending? || task.status.Running? ==> s'.tasks == s.tasks)
  {
    FoundUnderItsId(steps, id);
    hide Possible, After;
    var s := After(START, steps);
    more, s := AsksTheStore(steps, s, c, id);
    more, s := PutsAway(more, s, c);
  }
}
