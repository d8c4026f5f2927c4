/**
  CreateTask together with its request lock (internal/travel/service.go and locks.go): what the lock, the
  wait and the lookup achieve by themselves, without a store that refuses.
 */
module LockedCreation {
  import opened Wrappers
  import C = CreateTask
  import R = RequestLock

  /** The calls and the store, and the lock; a call holds the lock under its own number. */
  datatype State = State(store: C.State, lock: R.State)

  /** A step of a call, the release a call has deferred, or time going by. */
  datatype Step = Do(step: C.Step) | Release(call: C.CallId) | Tick(now: int)

  function Begin(refusing: bool): State {
    State(C.Start(refusing), R.START)
  }

  /** What the step does to the lock, if anything. */
  function LockStep(s: State, step: Step): Option<R.Step> {
    match step
    case Do(Reply(c, LockAcquired)) =>
      if c in s.store.calls then Some(R.Acquire(c, s.store.calls[c].hash)) else None
    case Do(_) => None
    case Release(c) => Some(R.Release(c))
    case Tick(now) => Some(R.Tick(now))
  }

  /** The lock is refused only while it is taken, and released only when the call is over. */
  predicate Enabled(s: State, step: Step) {
    && (LockStep(s, step).Some? ==> R.Enabled(s.lock, LockStep(s, step).value))
    && match step
       case Do(cs) =>
         && C.Enabled(s.store, cs)
         && (cs.Reply? && cs.answer == C.LockTaken ==> R.IsTaken(s.lock.locks, s.store.calls[cs.call].hash, s.lock.now))
       case Release(c) => c in s.store.calls && C.Over(s.store.calls[c].pc)
       case Tick(_) => true
  }

  function Apply(kind: R.Kind, ttl: int, s: State, step: Step): State
    requires Enabled(s, step)
  {
    State(
      if step.Do? then C.Apply(s.store, step.step) else s.store,
      if LockStep(s, step).Some? then R.Apply(kind, ttl, s.lock, LockStep(s, step).value) else s.lock)
  }

  ghost predicate Possible(kind: R.Kind, ttl: int, s: State, steps: seq<Step>)
    decreases |steps|
  {
    steps == [] || (Enabled(s, steps[0]) && Possible(kind, ttl, Apply(kind, ttl, s, steps[0]), steps[1..]))
  }

  ghost function After(kind: R.Kind, ttl: int, s: State, steps: seq<Step>): State
    requires Possible(kind, ttl, s, steps)
    decreases |steps|
  {
    if steps == [] then s else After(kind, ttl, Apply(kind, ttl, s, steps[0]), steps[1..])
  }

  // ---------------------------------------------------------------- nothing goes wrong with the lock

  /** No lock failure, no failed lookup, and nobody goes on after waiting without the other's task. */
  predicate CallGoesWell(s: C.State, step: C.Step) {
    match step
    case Arrive(_, hash, _) => hash != ""
    case Reply(c, a) =>
      && a != C.LockFailed && !C.LookupFails(s, step)
      && (c in s.calls && s.calls[c].pc == C.WaitingForOther ==> !(a == C.LookupFailed || a == C.Missing(true)))
  }

  /** No lock runs out on a call that is inside; and without tokens, no release comes too late. */
  predicate GoesWell(kind: R.Kind, s: State, step: Step) {
    match step
    case Do(cs) => CallGoesWell(s.store, cs)
    case Release(c) => kind == R.Memory && c in s.lock.holds ==> s.lock.holds[c].expiresAt > s.lock.now
    case Tick(now) =>
      forall c | c in s.store.calls && C.Inside(s.store.calls[c].pc) && c in s.lock.holds ::
        s.lock.holds[c].expiresAt > now
  }

  ghost predicate AllGoesWell(kind: R.Kind, ttl: int, s: State, steps: seq<Step>)
    requires Possible(kind, ttl, s, steps)
    decreases |steps|
  {
    steps == []
    || (GoesWell(kind, s, steps[0]) && AllGoesWell(kind, ttl, Apply(kind, ttl, s, steps[0]), steps[1..]))
  }

  /** Whoever is inside has the lock of its hash, which is not empty. */
  ghost predicate Guarded(s: State) {
    && (forall c | c in s.store.calls :: s.store.calls[c].hash != "")
    && (forall c | c in s.store.calls && C.Inside(s.store.calls[c].pc) :: R.Holds(s.lock, c, s.store.calls[c].hash))
  }

  lemma CallKeepsGuard(kind: R.Kind, ttl: int, s: State, cs: C.Step)
    requires ttl > 0 && Guarded(s) && Enabled(s, Do(cs)) && CallGoesWell(s.store, cs)
    ensures Guarded(Apply(kind, ttl, s, Do(cs)))
  {
    var s' := Apply(kind, ttl, s, Do(cs));
    if cs.Reply? {
      C.ReplyEffect(s.store, cs.call, cs.answer);
      GoesInside(s.store, cs.call, cs.answer);
      LockAfterReply(kind, ttl, s, cs.call, cs.answer);
      hide C.Apply, C.Enabled, C.Advance, R.Apply, R.Enabled, Apply, Enabled, C.Inside;
    }
  }

  /** A call comes inside with the lock, or has been inside before. */
  lemma GoesInside(s: C.State, c: C.CallId, a: C.Answer)
    requires C.Enabled(s, C.Reply(c, a)) && CallGoesWell(s, C.Reply(c, a))
    ensures C.Inside(C.Advance(s.calls[c].pc, s.calls[c].own, a).value) ==>
              a == C.LockAcquired || C.Inside(s.calls[c].pc)
  {
  }

  lemma LockAfterReply(kind: R.Kind, ttl: int, s: State, c: C.CallId, a: C.Answer)
    requires ttl > 0 && Enabled(s, Do(C.Reply(c, a)))
    ensures forall d, hash | d != c && R.Holds(s.lock, d, hash) ::
              R.Holds(Apply(kind, ttl, s, Do(C.Reply(c, a))).lock, d, hash)
    ensures var lock := Apply(kind, ttl, s, Do(C.Reply(c, a))).lock;
            if a == C.LockAcquired then R.Holds(lock, c, s.store.calls[c].hash) else lock == s.lock
  {
    hide C.Apply, C.Advance, C.CanAnswer;
  }

  lemma ReleaseKeepsGuard(kind: R.Kind, ttl: int, s: State, c: C.CallId)
    requires Guarded(s) && Enabled(s, Release(c))
    ensures Guarded(Apply(kind, ttl, s, Release(c)))
  {
  }

  lemma TickKeepsGuard(kind: R.Kind, ttl: int, s: State, now: int)
    requires Guarded(s) && Enabled(s, Tick(now)) && GoesWell(kind, s, Tick(now))
    ensures Guarded(Apply(kind, ttl, s, Tick(now)))
  {
  }

  lemma StepKeepsGuard(kind: R.Kind, ttl: int, s: State, step: Step)
    requires ttl > 0 && Guarded(s) && Enabled(s, step) && GoesWell(kind, s, step)
    ensures Guarded(Apply(kind, ttl, s, step))
  {
    hide Guarded, Apply, Enabled;
    match step
    case Do(cs) => CallKeepsGuard(kind, ttl, s, cs);
    case Release(c) => ReleaseKeepsGuard(kind, ttl, s, c);
    case Tick(now) => TickKeepsGuard(kind, ttl, s, now);
  }

  lemma TimelyStep(kind: R.Kind, ttl: int, s: State, step: Step)
    requires kind == R.Memory && Enabled(s, step) && GoesWell(kind, s, step) && LockStep(s, step).Some?
    ensures R.Possible(kind, ttl, s.lock, [LockStep(s, step).value])
    ensures R.InTime(kind, ttl, s.lock, [LockStep(s, step).value])
  {
    hide C.Enabled;
    var l := LockStep(s, step).value;
    assert [l][1..] == [];
    assert R.Possible(kind, ttl, R.Apply(kind, ttl, s.lock, l), []);
  }

  /** The lock excludes, so at most one call of a hash is inside. */
  lemma GuardGivesOneInside(kind: R.Kind, ttl: int, s: State, past: seq<R.Step>)
    requires Guarded(s) && R.Possible(kind, ttl, R.START, past) && R.After(kind, ttl, R.START, past) == s.lock
    requires kind == R.Token || R.InTime(kind, ttl, R.START, past)
    ensures C.OneInside(s.store)
  {
    hide R.Possible, R.After, R.InTime, C.Inside, R.Holds;
    forall c, d | c in s.store.calls && d in s.store.calls && s.store.calls[c].hash == s.store.calls[d].hash
                  && C.Inside(s.store.calls[c].pc) && C.Inside(s.store.calls[d].pc)
      ensures c == d
    {
      R.AtMostOneHolder(kind, ttl, past, s.store.calls[c].hash);
    }
  }

  /** The steps of the calls alone. */
  function StoreSteps(steps: seq<Step>): seq<C.Step> {
    if steps == [] then []
    else (if steps[0].Do? then [steps[0].step] else []) + StoreSteps(steps[1..])
  }

  lemma {:induction false} Follow(kind: R.Kind, ttl: int, s: State, past: seq<R.Step>, steps: seq<Step>)
    requires ttl > 0 && Guarded(s) && Possible(kind, ttl, s, steps) && AllGoesWell(kind, ttl, s, steps)
    requires R.Possible(kind, ttl, R.START, past) && R.After(kind, ttl, R.START, past) == s.lock
    requires kind == R.Token || R.InTime(kind, ttl, R.START, past)
    ensures C.Possible(s.store, StoreSteps(steps))
    ensures C.After(s.store, StoreSteps(steps)) == After(kind, ttl, s, steps).store
    ensures C.Orderly(s.store, StoreSteps(steps))
    decreases |steps|
  {
    GuardGivesOneInside(kind, ttl, s, past);
    if steps != [] {
      var step, rest := steps[0], StoreSteps(steps[1..]);
      var s' := Apply(kind, ttl, s, step);
      StepKeepsGuard(kind, ttl, s, step);
      var past' := past;
      if LockStep(s, step).Some? {
        past' := past + [LockStep(s, step).value];
        R.OneMoreStep(kind, ttl, R.START, past, LockStep(s, step).value);
        if kind == R.Memory {
          TimelyStep(kind, ttl, s, step);
        }
      }
      hide R.Possible, R.After, R.InTime, Guarded, C.OneInside;
      Follow(kind, ttl, s', past', steps[1..]);
      if step.Do? {
        assert StoreSteps(steps)[0] == step.step && StoreSteps(steps)[1..] == rest;
      } else {
        assert StoreSteps(steps) == rest;
      }
    }
  }

  /**
    With either lock and any store, so with MemoryRequestLock and MemoryTaskStore: on every run in which no
    lock operation and no lookup fails, nobody tires of waiting, and no lock runs out on a call that is
    looking up or creating (nor, in memory, before it is released), two tasks never share a hash and every
    successful call returns the task of its hash.
   */
  lemma LockedCallsShareNothing(refusing: bool, kind: R.Kind, ttl: int, steps: seq<Step>)
    requires ttl > 0 && Possible(kind, ttl, Begin(refusing), steps) && AllGoesWell(kind, ttl, Begin(refusing), steps)
    ensures C.SameTaskForSameRequest(After(kind, ttl, Begin(refusing), steps).store)
  {
    Follow(kind, ttl, Begin(refusing), [], steps);
    C.OneAtATimeSharesNothing(refusing, StoreSteps(steps));
  }
}
