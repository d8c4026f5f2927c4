/**
  internal/travel/service.go, CreateTask and waitForExistingTask: any number of calls, for any number
  of request hashes, interleaved at every lock, clock and store call. The store either refuses a second
  task for a hash (the unique index on request_hash) or, like MemoryTaskStore, overwrites.
 */
module CreateTask {
  import opened Wrappers

  type TaskId = nat
  type Hash = string
  type CallId = nat

  /** Where one call is. `Failed` is an error returned to the caller. */
  datatype Pc =
    | Checking
    | Locking
    | WaitingForOther
    | LookingUp
    | Creating
    | Announcing
    | Starting
    | Colliding
    | Returned(id: TaskId)
    | Failed

  /** What the next thing the call asks its surroundings comes back with. */
  datatype Answer =
    | Admitted            // the request is valid, and the rate limiter allowed it or failed
    | Rejected            // invalid, or over the rate limit
    | LockAcquired
    | LockTaken
    | LockFailed
    | Found(id: TaskId)
    | Missing(giveUp: bool) // while waiting: the deadline has passed, or the caller is gone
    | LookupFailed
    | Stored              // Create reported success
    | NotStored(kept: bool) // Create reported an error; `kept` when the task is there all the same
    | EventSent
    | PublicationPanics   // the event of the creation met the closed channel of a reader
    | PlannerStarted

  /** The code of one call: what it does with each answer. `own` is the id it has drawn. */
  function Advance(pc: Pc, own: TaskId, a: Answer): Option<Pc> {
    match (pc, a)
    case (Checking, Admitted) => Some(Locking)
    case (Checking, Rejected) => Some(Failed)
    case (Locking, LockAcquired) => Some(LookingUp)
    case (Locking, LockFailed) => Some(LookingUp)
    case (Locking, LockTaken) => Some(WaitingForOther)
    case (WaitingForOther, Found(id)) => Some(Returned(id))
    case (WaitingForOther, LookupFailed) => Some(LookingUp)
    case (WaitingForOther, Missing(giveUp)) => Some(if giveUp then LookingUp else WaitingForOther)
    case (LookingUp, Found(id)) => Some(Returned(id))
    case (LookingUp, Missing(_)) => Some(Creating)
    case (LookingUp, LookupFailed) => Some(Creating)
    case (Creating, Stored) => Some(Announcing)
    case (Creating, NotStored(_)) => Some(Colliding)
    case (Colliding, Found(id)) => Some(Returned(id))
    case (Colliding, Missing(_)) => Some(Failed)
    case (Colliding, LookupFailed) => Some(Failed)
    case (Announcing, EventSent) => Some(Starting)
    case (Announcing, PublicationPanics) => Some(Failed)
    case (Starting, PlannerStarted) => Some(Returned(own))
    case _ => None
  }

  datatype Call = Call(hash: Hash, own: TaskId, pc: Pc)

  /**
    `index` finds the task of a hash, `acknowledged` holds the tasks whose Create reported success,
    `announced` those whose creation's event was sent, `starts` counts the planner runs of each task,
    `refusing` tells the kind of store.
   */
  datatype State = State(
    refusing: bool,
    calls: map<CallId, Call>,
    tasks: map<TaskId, Hash>,
    index: map<Hash, TaskId>,
    acknowledged: set<TaskId>,
    announced: set<TaskId>,
    starts: map<TaskId, nat>)

  function Start(refusing: bool): State {
    State(refusing, map[], map[], map[], {}, {}, map[])
  }

  datatype Step = Arrive(call: CallId, hash: Hash, own: TaskId) | Reply(call: CallId, answer: Answer)

  /** Task ids are random: no two calls draw the same one. */
  predicate Fresh(s: State, own: TaskId) {
    forall c | c in s.calls :: s.calls[c].own != own
  }

  /** The store accepts a task for this hash. */
  predicate Accepts(s: State, hash: Hash) {
    s.refusing ==> hash !in s.index
  }

  /** The answers the surroundings can give: lookups tell the truth or fail, everything else is free. */
  predicate CanAnswer(s: State, hash: Hash, a: Answer) {
    match a
    case Found(id) => hash in s.index && s.index[hash] == id
    case Missing(_) => hash !in s.index
    case Stored => Accepts(s, hash)
    case NotStored(kept) => kept ==> Accepts(s, hash)
    case _ => true
  }

  /** The task is in the store afterwards, whatever the store reported. */
  predicate Stores(a: Answer) {
    a == Stored || a == NotStored(true)
  }

  predicate Enabled(s: State, step: Step) {
    match step
    case Arrive(c, _, own) => c !in s.calls && Fresh(s, own)
    case Reply(c, a) =>
      && c in s.calls
      && Advance(s.calls[c].pc, s.calls[c].own, a).Some?
      && CanAnswer(s, s.calls[c].hash, a)
  }

  function StartsOf(s: State, id: TaskId): nat {
    if id in s.starts then s.starts[id] else 0
  }

  function Apply(s: State, step: Step): State
    requires Enabled(s, step)
  {
    match step
    case Arrive(c, hash, own) => s.(calls := s.calls[c := Call(hash, own, Checking)])
    case Reply(c, a) =>
      var call := s.calls[c];
      var s1 := s.(calls := s.calls[c := call.(pc := Advance(call.pc, call.own, a).value)]);
      if Stores(a) then
        s1.(tasks := s.tasks[call.own := call.hash], index := s.index[call.hash := call.own],
            acknowledged := s.acknowledged + if a == Stored then {call.own} else {})
      else if a == EventSent then s1.(announced := s.announced + {call.own})
      else if a == PlannerStarted then s1.(starts := s.starts[call.own := StartsOf(s, call.own) + 1])
      else s1
  }

  ghost predicate Possible(s: State, steps: seq<Step>)
    decreases |steps|
  {
    steps == [] || (Enabled(s, steps[0]) && Possible(Apply(s, steps[0]), steps[1..]))
  }

  ghost function After(s: State, steps: seq<Step>): State
    requires Possible(s, steps)
    decreases |steps|
  {
    if steps == [] then s else After(Apply(s, steps[0]), steps[1..])
  }

  // ---------------------------------------------------------------- the code of one call

  /** A call fed with a series of answers. */
  function AdvanceAll(pc: Pc, own: TaskId, answers: seq<Answer>): Option<Pc> {
    if answers == [] then Some(pc)
    else
      match AdvanceAll(pc, own, answers[..|answers| - 1])
      case None => None
      case Some(before) => Advance(before, own, answers[|answers| - 1])
  }

  predicate Over(pc: Pc) {
    pc.Returned? || pc == Failed
  }

  /** After the first n answers the call is at `pc`. */
  ghost predicate At(own: TaskId, answers: seq<Answer>, n: nat, pc: Pc) {
    n <= |answers| && AdvanceAll(Checking, own, answers[..n]) == Some(pc)
  }

  /** These answers take one whole call to its end. */
  ghost predicate WholeCall(own: TaskId, answers: seq<Answer>) {
    exists pc :: At(own, answers, |answers|, pc) && Over(pc)
  }

  /** An unfinished call has another answer coming, and that one fits. */
  lemma {:induction false} OneMore(own: TaskId, answers: seq<Answer>, n: nat, pc: Pc)
    requires At(own, answers, n, pc) && WholeCall(own, answers)
    ensures Over(pc) <==> n == |answers|
    ensures !Over(pc) ==> Advance(pc, own, answers[n]).Some?
                          && At(own, answers, n + 1, Advance(pc, own, answers[n]).value)
  {
    var last :| At(own, answers, |answers|, last) && Over(last);
    if n < |answers| {
      assert answers[..|answers|] == answers;
      PrefixIsAccepted(own, answers, n + 1);
      assert answers[..n + 1][..n] == answers[..n];
    }
  }

  /** A call that took all the answers took each prefix of them. */
  lemma {:induction false} PrefixIsAccepted(own: TaskId, answers: seq<Answer>, n: nat)
    requires n <= |answers| && AdvanceAll(Checking, own, answers).Some?
    ensures AdvanceAll(Checking, own, answers[..n]).Some?
    decreases |answers|
  {
    if n < |answers| {
      PrefixIsAccepted(own, answers[..|answers| - 1], n);
      assert answers[..|answers| - 1][..n] == answers[..n];
    } else {
      assert answers[..n] == answers;
    }
  }

  /** waitForExistingTask: polls until the task appears, a lookup fails, or the call gives up. */
  method WaitForExistingTask(own: TaskId, answers: seq<Answer>, from: nat)
    returns (existing: Option<TaskId>, next: nat)
    requires WholeCall(own, answers) && At(own, answers, from, WaitingForOther)
    ensures from < next
    ensures At(own, answers, next, if existing.Some? then Returned(existing.value) else LookingUp)
  {
    next := from;
    while true
      invariant from <= next && At(own, answers, next, WaitingForOther)
      decreases |answers| - next
    {
      OneMore(own, answers, next, WaitingForOther);
      var answer := answers[next];
      next := next + 1;
      if answer.Found? {
        return Some(answer.id), next;
      }
      if answer.LookupFailed? {
        return None, next;
      }
      if answer.giveUp {
        return None, next;
      }
    }
  }

  /** CreateTask: `answers` is what the surroundings reply, in order; None is an error to the caller. */
  method Create(own: TaskId, answers: seq<Answer>) returns (result: Option<TaskId>)
    requires WholeCall(own, answers)
    ensures At(own, answers, |answers|, if result.Some? then Returned(result.value) else Failed)
  {
    OneMore(own, answers, 0, Checking);
    if answers[0] == Rejected {
      OneMore(own, answers, 1, Failed);
      return None;
    }
    OneMore(own, answers, 1, Locking);
    var next := 2;
    if answers[1] == LockTaken {
      var existing;
      existing, next := WaitForExistingTask(own, answers, 2);
      if existing.Some? {
        OneMore(own, answers, next, Returned(existing.value));
        return existing;
      }
    }
    result := LookUpAndCreate(own, answers, next);
  }

  /** With the lock, or after waiting long enough: the lookup, the creation, and the lookup after a collision. */
  method LookUpAndCreate(own: TaskId, answers: seq<Answer>, next: nat) returns (result: Option<TaskId>)
    requires WholeCall(own, answers) && At(own, answers, next, LookingUp)
    ensures At(own, answers, |answers|, if result.Some? then Returned(result.value) else Failed)
  {
    OneMore(own, answers, next, LookingUp);
    var lookup := answers[next];
    if lookup.Found? {
      OneMore(own, answers, next + 1, Returned(lookup.id));
      return Some(lookup.id);
    }
    OneMore(own, answers, next + 1, Creating);
    var create := answers[next + 1];
    if create.NotStored? {
      OneMore(own, answers, next + 2, Colliding);
      var again := answers[next + 2];
      if again.Found? {
        OneMore(own, answers, next + 3, Returned(again.id));
        return Some(again.id);
      }
      OneMore(own, answers, next + 3, Failed);
      return None;
    }
    result := Announce(own, answers, next + 2);
  }

  /** The end of CreateTask: the event of the creation is published, then the planner is started. */
  method Announce(own: TaskId, answers: seq<Answer>, next: nat) returns (result: Option<TaskId>)
    requires WholeCall(own, answers) && At(own, answers, next, Announcing)
    ensures At(own, answers, |answers|, if result.Some? then Returned(result.value) else Failed)
  {
    OneMore(own, answers, next, Announcing);
    if answers[next] == PublicationPanics {
      OneMore(own, answers, next + 1, Failed);
      return None;
    }
    OneMore(own, answers, next + 1, Starting);
    OneMore(own, answers, next + 2, Returned(own));
    return Some(own);
  }

  // ---------------------------------------------------------------- overwriting

  /** This step stores a task whose hash the store already has a task for. */
  predicate Overwrites(s: State, step: Step) {
    step.Reply? && Stores(step.answer) && step.call in s.calls && s.calls[step.call].hash in s.index
  }

  /** Some step of the run does. */
  ghost predicate Overwritten(s: State, steps: seq<Step>)
    requires Possible(s, steps)
    decreases |steps|
  {
    steps != [] && (Overwrites(s, steps[0]) || Overwritten(Apply(s, steps[0]), steps[1..]))
  }

  ghost predicate Shared(s: State) {
    exists t, u | t in s.tasks && u in s.tasks && t != u :: s.tasks[t] == s.tasks[u]
  }

  /** A store that refuses never does. */
  lemma {:induction false} RefusingNeverOverwrites(s: State, steps: seq<Step>)
    requires s.refusing && Possible(s, steps)
    ensures !Overwritten(s, steps)
    decreases |steps|
  {
    if steps != [] {
      RefusingNeverOverwrites(Apply(s, steps[0]), steps[1..]);
    }
  }

  // ---------------------------------------------------------------- what holds of every run

  /** The call has not stored its task yet. */
  predicate BeforeStoring(pc: Pc) {
    pc == Checking || pc == Locking || pc == WaitingForOther || pc == LookingUp || pc == Creating
  }

  ghost predicate Owned(s: State, t: TaskId) {
    exists c | c in s.calls :: s.calls[c].own == t
  }

  /** Every hash leads to one of its tasks; ids are drawn once, and stored by the call that drew them. */
  ghost predicate StoreInv(s: State) {
    && (forall h | h in s.index :: s.index[h] in s.tasks && s.tasks[s.index[h]] == h)
    && (forall c | c in s.calls && BeforeStoring(s.calls[c].pc) :: s.calls[c].own !in s.tasks)
    && (forall c, d | c in s.calls && d in s.calls && c != d :: s.calls[c].own != s.calls[d].own)
    && (forall t | t in s.tasks || t in s.starts :: Owned(s, t))
  }

  lemma ArriveKeepsStoreInv(s: State, c: CallId, hash: Hash, own: TaskId)
    requires StoreInv(s) && Enabled(s, Arrive(c, hash, own))
    ensures StoreInv(Apply(s, Arrive(c, hash, own)))
    ensures own !in s.tasks && own !in s.starts
  {
    var s' := Apply(s, Arrive(c, hash, own));
    assert !Owned(s, own);
    forall t | t in s'.tasks || t in s'.starts
      ensures Owned(s', t)
    {
      var d :| d in s.calls && s.calls[d].own == t;
      assert s'.calls[d].own == t;
    }
  }

  lemma ReplyKeepsOwners(s: State, c: CallId, a: Answer, t: TaskId)
    requires Enabled(s, Reply(c, a)) && (t in s.tasks || t in s.starts ==> Owned(s, t))
    requires t in Apply(s, Reply(c, a)).tasks || t in Apply(s, Reply(c, a)).starts
    ensures Owned(Apply(s, Reply(c, a)), t)
  {
    hide Advance, CanAnswer;
    var s' := Apply(s, Reply(c, a));
    if t in s.tasks || t in s.starts {
      var d :| d in s.calls && s.calls[d].own == t;
      assert s'.calls[d].own == t;
    } else {
      assert s'.calls[c].own == t;
    }
  }

  /** A call stores its task once. */
  lemma OwnTaskIsNew(s: State, c: CallId, a: Answer)
    requires StoreInv(s) && Enabled(s, Reply(c, a)) && Stores(a)
    ensures s.calls[c].own !in s.tasks && s.calls[c].pc == Creating
  {
  }

  /** Once past storing, for good. */
  lemma PastStoring(pc: Pc, own: TaskId, a: Answer)
    requires Advance(pc, own, a).Some?
    ensures !BeforeStoring(pc) || Stores(a) ==> !BeforeStoring(Advance(pc, own, a).value)
  {
  }

  /** What an answer does to the store and to the calls. */
  lemma ReplyEffect(s: State, c: CallId, a: Answer)
    requires Enabled(s, Reply(c, a))
    ensures var s', call := Apply(s, Reply(c, a)), s.calls[c];
            && s'.calls == s.calls[c := call.(pc := Advance(call.pc, call.own, a).value)]
            && s'.tasks == (if Stores(a) then s.tasks[call.own := call.hash] else s.tasks)
            && s'.index == (if Stores(a) then s.index[call.hash := call.own] else s.index)
  {
    hide Advance, CanAnswer;
  }

  lemma CallThere(s: State, c: CallId, a: Answer)
    requires Enabled(s, Reply(c, a))
    ensures c in s.calls && Advance(s.calls[c].pc, s.calls[c].own, a).Some?
  {
  }

  lemma ReplyKeepsStoreInv(s: State, c: CallId, a: Answer)
    requires StoreInv(s) && Enabled(s, Reply(c, a))
    ensures StoreInv(Apply(s, Reply(c, a)))
    ensures forall t | t in s.tasks :: t in Apply(s, Reply(c, a)).tasks && Apply(s, Reply(c, a)).tasks[t] == s.tasks[t]
  {
    hide Advance, CanAnswer, Owned, BeforeStoring, Apply, Enabled, Stores;
    var s' := Apply(s, Reply(c, a));
    CallThere(s, c, a);
    ReplyEffect(s, c, a);
    PastStoring(s.calls[c].pc, s.calls[c].own, a);
    if Stores(a) {
      OwnTaskIsNew(s, c, a);
    }
    forall t | t in s'.tasks || t in s'.starts
      ensures Owned(s', t)
    {
      ReplyKeepsOwners(s, c, a, t);
    }
  }

  /** The step at which two tasks of a hash come to be. */
  lemma OverwritingShares(s: State, step: Step)
    requires StoreInv(s) && Enabled(s, step) && Overwrites(s, step)
    ensures Shared(Apply(s, step))
  {
    OwnTaskIsNew(s, step.call, step.answer);
    var s', call := Apply(s, step), s.calls[step.call];
    var t := s.index[call.hash];
    assert t in s'.tasks && call.own in s'.tasks && t != call.own && s'.tasks[t] == s'.tasks[call.own];
  }

  lemma {:induction false} StepKeepsStoreInv(s: State, step: Step)
    requires StoreInv(s) && Enabled(s, step)
    ensures StoreInv(Apply(s, step))
    ensures Shared(s) ==> Shared(Apply(s, step))
  {
    match step
    case Arrive(c, hash, own) => ArriveKeepsStoreInv(s, c, hash, own);
    case Reply(c, a) =>
      ReplyKeepsStoreInv(s, c, a);
      hide Apply, Enabled, StoreInv;
      if Shared(s) {
        var t, u :| t in s.tasks && u in s.tasks && t != u && s.tasks[t] == s.tasks[u];
        assert Apply(s, step).tasks[t] == Apply(s, step).tasks[u];
      }
  }

  lemma {:induction false} OverwrittenIsShared(s: State, steps: seq<Step>)
    requires StoreInv(s) && Possible(s, steps) && (Shared(s) || Overwritten(s, steps))
    ensures Shared(After(s, steps))
    decreases |steps|
  {
    hide StoreInv, Apply, Enabled, Shared, Overwrites;
    if steps != [] {
      StepKeepsStoreInv(s, steps[0]);
      if Overwrites(s, steps[0]) {
        OverwritingShares(s, steps[0]);
      }
      OverwrittenIsShared(Apply(s, steps[0]), steps[1..]);
    }
  }

  // ---------------------------------------------------------------- without overwriting

  /** Each task is the one its hash leads to. */
  ghost predicate OnePerHash(s: State) {
    forall t | t in s.tasks :: s.tasks[t] in s.index && s.index[s.tasks[t]] == t
  }

  /** What one call can rely on. */
  ghost predicate CallInv(s: State, c: CallId)
    requires c in s.calls
  {
    var call := s.calls[c];
    var own := call.own;
    && (own in s.tasks ==> s.tasks[own] == call.hash)
    && match call.pc
       case Returned(id) =>
         && id in s.tasks && s.tasks[id] == call.hash
         && StartsOf(s, own) == (if own in s.announced then 1 else 0)
       case Announcing => own in s.acknowledged && own !in s.announced && StartsOf(s, own) == 0
       case Starting => own in s.announced && StartsOf(s, own) == 0
       case _ => own !in s.announced && StartsOf(s, own) == 0
  }

  ghost predicate Inv(s: State) {
    && StoreInv(s)
    && OnePerHash(s)
    && s.announced <= s.acknowledged <= s.tasks.Keys
    && (forall c | c in s.calls :: CallInv(s, c))
  }

  lemma {:induction false} ArriveKeepsInv(s: State, c: CallId, hash: Hash, own: TaskId)
    requires Inv(s) && Enabled(s, Arrive(c, hash, own))
    ensures Inv(Apply(s, Arrive(c, hash, own)))
  {
    hide StoreInv, CallInv;
    ArriveKeepsStoreInv(s, c, hash, own);
    var s' := Apply(s, Arrive(c, hash, own));
    forall d | d in s'.calls
      ensures CallInv(s', d)
    {
      ArriveKeepsCall(s, c, hash, own, d);
    }
  }

  lemma ArriveKeepsCall(s: State, c: CallId, hash: Hash, own: TaskId, d: CallId)
    requires Enabled(s, Arrive(c, hash, own)) && (d == c || (d in s.calls && CallInv(s, d)))
    requires own !in s.tasks && own !in s.starts && s.announced <= s.acknowledged <= s.tasks.Keys
    ensures CallInv(Apply(s, Arrive(c, hash, own)), d)
  {
  }

  lemma ReplyKeepsOwnCall(s: State, c: CallId, a: Answer)
    requires Inv(s) && Enabled(s, Reply(c, a))
    ensures CallInv(Apply(s, Reply(c, a)), c)
  {
    hide StoreInv, OnePerHash, Apply, CanAnswer;
    assert CallInv(s, c);
    ReplyEffect(s, c, a);
    ReplyMarks(s, c, a);
    FoundIsTask(s, c, a);
    if Stores(a) {
      OwnTaskIsNew(s, c, a);
    }
  }

  lemma FoundIsTask(s: State, c: CallId, a: Answer)
    requires StoreInv(s) && Enabled(s, Reply(c, a))
    ensures a.Found? ==> a.id in s.tasks && s.tasks[a.id] == s.calls[c].hash
  {
    hide Advance, Owned;
  }

  lemma ReplyMarks(s: State, c: CallId, a: Answer)
    requires Enabled(s, Reply(c, a))
    ensures var s', own := Apply(s, Reply(c, a)), s.calls[c].own;
            && s'.acknowledged == s.acknowledged + (if a == Stored then {own} else {})
            && s'.announced == s.announced + (if a == EventSent then {own} else {})
            && StartsOf(s', own) == StartsOf(s, own) + if a == PlannerStarted then 1 else 0
  {
    hide Advance, CanAnswer;
  }

  /** An answer to one call changes that call and what its own id leads to; no task is lost. */
  lemma ReplyFrame(s: State, c: CallId, a: Answer)
    requires Inv(s) && Enabled(s, Reply(c, a))
    ensures var s' := Apply(s, Reply(c, a));
            && s'.calls.Keys == s.calls.Keys && (forall d | d in s.calls && d != c :: s'.calls[d] == s.calls[d])
            && (forall t | t in s.tasks :: t in s'.tasks && s'.tasks[t] == s.tasks[t])
            && (forall t | t != s.calls[c].own ::
                  && (t in s'.tasks ==> t in s.tasks)
                  && (t in s'.acknowledged <==> t in s.acknowledged)
                  && (t in s'.announced <==> t in s.announced)
                  && StartsOf(s', t) == StartsOf(s, t))
  {
    hide StoreInv, Advance, CanAnswer, OnePerHash, CallInv;
    if Stores(a) {
      OwnTaskIsNew(s, c, a);
    }
  }

  lemma ReplyKeepsOtherCall(s: State, c: CallId, a: Answer, d: CallId)
    requires Inv(s) && Enabled(s, Reply(c, a)) && d in s.calls && d != c
    ensures CallInv(Apply(s, Reply(c, a)), d)
  {
    hide StoreInv, Advance, CanAnswer, OnePerHash, Apply, StartsOf;
    ReplyFrame(s, c, a);
    OwnsDiffer(s, c, d);
    assert CallInv(s, d);
  }

  lemma OwnsDiffer(s: State, c: CallId, d: CallId)
    requires StoreInv(s) && c in s.calls && d in s.calls && c != d
    ensures s.calls[c].own != s.calls[d].own
  {
  }

  /** A task stored under a new hash is the only one of its hash. */
  lemma ReplyKeepsOnePerHash(s: State, c: CallId, a: Answer)
    requires Inv(s) && Enabled(s, Reply(c, a)) && !Overwrites(s, Reply(c, a))
    ensures var s' := Apply(s, Reply(c, a));
            OnePerHash(s') && s'.announced <= s'.acknowledged <= s'.tasks.Keys
  {
    hide StoreInv, Apply, CanAnswer;
    ReplyEffect(s, c, a);
    ReplyMarks(s, c, a);
  }

  lemma {:induction false} ReplyKeepsInv(s: State, c: CallId, a: Answer)
    requires Inv(s) && Enabled(s, Reply(c, a)) && !Overwrites(s, Reply(c, a))
    ensures Inv(Apply(s, Reply(c, a)))
  {
    hide CallInv, OnePerHash, StoreInv, CanAnswer, Advance;
    var s' := Apply(s, Reply(c, a));
    ReplyKeepsStoreInv(s, c, a);
    ReplyKeepsOnePerHash(s, c, a);
    forall d | d in s'.calls
      ensures CallInv(s', d)
    {
      if d == c {
        ReplyKeepsOwnCall(s, c, a);
      } else {
        ReplyKeepsOtherCall(s, c, a, d);
      }
    }
  }

  lemma {:induction false} RunKeepsInv(s: State, steps: seq<Step>)
    requires Inv(s) && Possible(s, steps) && !Overwritten(s, steps)
    ensures Inv(After(s, steps))
    decreases |steps|
  {
    hide Inv, Apply, Enabled, Overwrites;
    if steps != [] {
      match steps[0] {
        case Arrive(c, hash, own) => ArriveKeepsInv(s, c, hash, own);
        case Reply(c, a) => ReplyKeepsInv(s, c, a);
      }
      RunKeepsInv(Apply(s, steps[0]), steps[1..]);
    }
  }

  // ---------------------------------------------------------------- for every run

  /** Two tasks never share a hash, and every successful call returns the one task of its hash. */
  ghost predicate SameTaskForSameRequest(s: State) {
    && !Shared(s)
    && (forall c | c in s.calls && s.calls[c].pc.Returned? ::
          s.calls[c].pc.id in s.tasks && s.tasks[s.calls[c].pc.id] == s.calls[c].hash)
    && (forall c, d | c in s.calls && d in s.calls && s.calls[c].hash == s.calls[d].hash
                      && s.calls[c].pc.Returned? && s.calls[d].pc.Returned? ::
          s.calls[c].pc.id == s.calls[d].pc.id)
  }

  lemma InvGivesSameTask(s: State)
    requires Inv(s)
    ensures SameTaskForSameRequest(s)
  {
    hide StoreInv, StartsOf;
    assert forall c | c in s.calls :: CallInv(s, c);
  }

  /**
    With either kind of store, on every run: two tasks of one hash come to be if and only if some task is
    stored while its hash already has one; and as long as none is, all calls for a hash return its task.
   */
  lemma SharedIffOverwritten(refusing: bool, steps: seq<Step>)
    requires Possible(Start(refusing), steps)
    ensures Shared(After(Start(refusing), steps)) <==> Overwritten(Start(refusing), steps)
    ensures !Overwritten(Start(refusing), steps) ==> SameTaskForSameRequest(After(Start(refusing), steps))
  {
    if Overwritten(Start(refusing), steps) {
      OverwrittenIsShared(Start(refusing), steps);
    } else {
      RunKeepsInv(Start(refusing), steps);
      hide Possible, After, Overwritten;
      InvGivesSameTask(After(Start(refusing), steps));
    }
  }

  /**
    On every run against a refusing store: two tasks never share a hash, and every successful call
    returns the one task of its hash, so two successful calls for one hash return the same id.
   */
  lemma SameRequestSameTask(steps: seq<Step>)
    requires Possible(Start(true), steps)
    ensures SameTaskForSameRequest(After(Start(true), steps))
  {
    RefusingNeverOverwrites(Start(true), steps);
    SharedIffOverwritten(true, steps);
  }

  /**
    On every run without overwriting, so on every run against a refusing store, the planner is started at
    most once per task; and once the call that drew the task's id is over, exactly when the store
    acknowledged the task's creation and the event of the creation was sent.
   */
  lemma PlannerStartsOnce(refusing: bool, steps: seq<Step>, t: TaskId)
    requires Possible(Start(refusing), steps) && (refusing || !Overwritten(Start(refusing), steps))
    ensures StartsOf(After(Start(refusing), steps), t) <= 1
    ensures forall c | c in After(Start(refusing), steps).calls ::
              var s := After(Start(refusing), steps);
              s.calls[c].own == t && Over(s.calls[c].pc) ==>
                (StartsOf(s, t) == 1 <==> t in s.acknowledged && t in s.announced)
  {
    if refusing {
      RefusingNeverOverwrites(Start(refusing), steps);
    }
    RunKeepsInv(Start(refusing), steps);
    hide Possible, After, Overwritten;
    var s := After(Start(refusing), steps);
    if t in s.starts {
      assert Owned(s, t);
      var c :| c in s.calls && s.calls[c].own == t;
      assert CallInv(s, c);
    }
    forall c | c in s.calls && s.calls[c].own == t
      ensures CallInv(s, c)
    {
    }
  }

  // ---------------------------------------------------------------- one call of a hash at a time

  /** The call is between the end of its waiting and the answer to its creation. */
  predicate Inside(pc: Pc) {
    pc == LookingUp || pc == Creating
  }

  ghost predicate OneInside(s: State) {
    forall c, d | c in s.calls && d in s.calls && s.calls[c].hash == s.calls[d].hash
                  && Inside(s.calls[c].pc) && Inside(s.calls[d].pc) :: c == d
  }

  predicate LookupFails(s: State, step: Step) {
    step.Reply? && step.answer == LookupFailed && step.call in s.calls && s.calls[step.call].pc == LookingUp
  }

  /** At every moment of the run at most one call of each hash is inside, and no lookup in there fails. */
  ghost predicate Orderly(s: State, steps: seq<Step>)
    requires Possible(s, steps)
    decreases |steps|
  {
    OneInside(s) && (steps != [] ==> !LookupFails(s, steps[0]) && Orderly(Apply(s, steps[0]), steps[1..]))
  }

  /** Whoever is about to create a task knows that there is none. */
  ghost predicate Clear(s: State) {
    forall c | c in s.calls && s.calls[c].pc == Creating :: s.calls[c].hash !in s.index
  }

  lemma StepKeepsClear(s: State, step: Step)
    requires Clear(s) && OneInside(s) && Enabled(s, step) && !LookupFails(s, step)
    ensures Clear(Apply(s, step)) && !Overwrites(s, step)
  {
    if step.Reply? {
      ReplyEffect(s, step.call, step.answer);
      hide Apply, Enabled, CanAnswer, Advance;
    }
  }

  lemma {:induction false} OrderlyNeverOverwrites(s: State, steps: seq<Step>)
    requires Clear(s) && Possible(s, steps) && Orderly(s, steps)
    ensures !Overwritten(s, steps)
    decreases |steps|
  {
    hide Clear, OneInside, Apply, Enabled, LookupFails, Overwrites;
    if steps != [] {
      StepKeepsClear(s, steps[0]);
      OrderlyNeverOverwrites(Apply(s, steps[0]), steps[1..]);
    }
  }

  /**
    With either kind of store, so with MemoryTaskStore: on every run in which at most one call of a hash at
    a time is looking up or creating, and no such lookup fails, two tasks never share a hash and every
    successful call returns the task of its hash.
   */
  lemma OneAtATimeSharesNothing(refusing: bool, steps: seq<Step>)
    requires Possible(Start(refusing), steps) && Orderly(Start(refusing), steps)
    ensures SameTaskForSameRequest(After(Start(refusing), steps))
  {
    OrderlyNeverOverwrites(Start(refusing), steps);
    SharedIffOverwritten(refusing, steps);
  }

  // ---------------------------------------------------------------- what else can happen

  lemma {:induction false} RunsCompose(s: State, a: seq<Step>, b: seq<Step>)
    requires Possible(s, a) && Possible(After(s, a), b)
    ensures Possible(s, a + b) && After(s, a + b) == After(After(s, a), b)
    decreases |a|
  {
    hide Apply, Enabled;
    if a == [] {
      assert a + b == b;
    } else {
      RunsCompose(Apply(s, a[0]), a[1..], b);
      assert (a + b)[0] == a[0] && (a + b)[1..] == a[1..] + b;
    }
  }

  /** One step more at the end of a run. */
  lemma Then(start: State, steps: seq<Step>, step: Step) returns (more: seq<Step>)
    requires Possible(start, steps) && Enabled(After(start, steps), step)
    ensures Possible(start, more) && After(start, more) == Apply(After(start, steps), step)
  {
    hide Apply, Enabled;
    more := steps + [step];
    var s := After(start, steps);
    assert Possible(s, [step]) && After(s, [step]) == Apply(s, step) by {
      assert [step][1..] == [];
    }
    RunsCompose(start, steps, [step]);
  }

  /** Two calls, 1 and 2, for one hash have both looked it up in vain. */
  lemma BothLookedUp(refusing: bool) returns (steps: seq<Step>)
    ensures Possible(Start(refusing), steps)
    ensures After(Start(refusing), steps) == TwoCalls(Start(refusing), Creating, Creating)
  {
    hide Possible, After, Apply, Enabled;
    var start := Start(refusing);
    steps := BothPastTheLock(start);
    steps := Move(start, steps, 1, LookingUp, LookingUp, Missing(false));
    steps := Move(start, steps, 2, Creating, LookingUp, Missing(false));
  }

  /** Call 1 has the lock, call 2 has waited for it too long. */
  lemma BothPastTheLock(start: State) returns (steps: seq<Step>)
    requires start.calls == map[] && start.index == map[]
    ensures Possible(start, steps) && After(start, steps) == TwoCalls(start, LookingUp, LookingUp)
  {
    hide Possible, After, Apply, Enabled;
    steps := BothArrive(start);
    steps := Move(start, steps, 1, Checking, Checking, Admitted);
    steps := Move(start, steps, 2, Locking, Checking, Admitted);
    steps := Move(start, steps, 1, Locking, Locking, LockAcquired);
    steps := Move(start, steps, 2, LookingUp, Locking, LockTaken);
    steps := Move(start, steps, 2, LookingUp, WaitingForOther, Missing(true));
  }

  lemma BothArrive(start: State) returns (steps: seq<Step>)
    requires start.calls == map[]
    ensures Possible(start, steps) && After(start, steps) == TwoCalls(start, Checking, Checking)
  {
    hide Possible, After;
    Nothing(start);
    steps := Then(start, [], Arrive(1, "h", 1));
    steps := Then(start, steps, Arrive(2, "h", 2));
  }

  function TwoCalls(start: State, one: Pc, two: Pc): State {
    start.(calls := map[1 := Call("h", 1, one), 2 := Call("h", 2, two)])
  }

  /** One of the two calls is answered before either has created a task. */
  lemma Move(start: State, steps: seq<Step>, c: CallId, one: Pc, two: Pc, a: Answer) returns (more: seq<Step>)
    requires start.index == map[] && (c == 1 || c == 2) && !a.Found? && a != Stored && !a.NotStored?
             && a != EventSent && a != PlannerStarted
    requires Possible(start, steps) && After(start, steps) == TwoCalls(start, one, two)
    requires Advance(if c == 1 then one else two, c, a).Some?
    ensures Possible(start, more)
    ensures c == 1 ==> After(start, more) == TwoCalls(start, Advance(one, 1, a).value, two)
    ensures c == 2 ==> After(start, more) == TwoCalls(start, one, Advance(two, 2, a).value)
  {
    hide Possible, After, Advance;
    more := Then(start, steps, Reply(c, a));
  }

  lemma Nothing(start: State)
    ensures Possible(start, []) && After(start, []) == start
  {
  }

  /**
    A store that overwrites does not meet SameRequestSameTask: a call that outwaits the lock holder
    goes on without the lock, and two tasks of one hash are created and planned.
   */
  lemma OverwritingStoreAdmitsTwo() returns (steps: seq<Step>)
    ensures Possible(Start(false), steps)
    ensures var s := After(Start(false), steps);
            && s.tasks == map[1 := "h", 2 := "h"] && StartsOf(s, 1) == 1 && StartsOf(s, 2) == 1
            && s.calls == map[1 := Call("h", 1, Returned(1)), 2 := Call("h", 2, Returned(2))]
  {
    steps := BothLookedUp(false);
    hide Possible, After;
    steps := Then(Start(false), steps, Reply(1, Stored));
    steps := Then(Start(false), steps, Reply(2, Stored));
    steps := Then(Start(false), steps, Reply(1, EventSent));
    steps := Then(Start(false), steps, Reply(2, EventSent));
    steps := Then(Start(false), steps, Reply(1, PlannerStarted));
    steps := Then(Start(false), steps, Reply(2, PlannerStarted));
  }

  /**
    Even a refusing store can leave a task that is never planned: it keeps the task but reports an
    error, and the caller takes its own task for the one of somebody else.
   */
  lemma UnacknowledgedTaskIsNeverPlanned() returns (steps: seq<Step>)
    ensures Possible(Start(true), steps)
    ensures var s := After(Start(true), steps);
            && s.tasks == map[1 := "h"] && StartsOf(s, 1) == 0
            && s.calls == map[1 := Call("h", 1, Returned(1)), 2 := Call("h", 2, Returned(1))]
  {
    steps := BothLookedUp(true);
    hide Possible, After;
    steps := Then(Start(true), steps, Reply(1, NotStored(true)));
    steps := Then(Start(true), steps, Reply(1, Found(1)));
    steps := Then(Start(true), steps, Reply(2, NotStored(false)));
    steps := Then(Start(true), steps, Reply(2, Found(1)));
  }

  /**
    Nor is a task planned whose creation's event met the closed channel of a reader: the creation is
    acknowledged, the panic ends the call, and another call returns the task.
   */
  lemma UnannouncedTaskIsNeverPlanned() returns (steps: seq<Step>)
    ensures Possible(Start(true), steps)
    ensures var s := After(Start(true), steps);
            && s.tasks == map[1 := "h"] && s.acknowledged == {1} && StartsOf(s, 1) == 0
            && s.calls == map[1 := Call("h", 1, Failed), 2 := Call("h", 2, Returned(1))]
  {
    steps := BothLookedUp(true);
    hide Possible, After;
    steps := Then(Start(true), steps, Reply(1, Stored));
    steps := Then(Start(true), steps, Reply(2, NotStored(false)));
    steps := Then(Start(true), steps, Reply(2, Found(1)));
    steps := Then(Start(true), steps, Reply(1, PublicationPanics));
  }
}
