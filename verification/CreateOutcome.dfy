/**
  What a call of CreateTask can go through, and what its caller gets: the answers of its surroundings
  as whole stories, against the code that takes them one by one.
 */
module CreateOutcome {
  import opened Wrappers
  import opened CreateTask

  // ---------------------------------------------------------------- when a call fails, and what it returns

  predicate NoTaskFound(a: Answer) {
    a.Missing? || a == LookupFailed
  }

  /**
    The request is refused, or the event of the creation panics, or the store reports an error for the
    creation and the lookup that follows does not find a task either. Failing locks and failing lookups
    before that are no reason.
   */
  predicate EndsInError(answers: seq<Answer>) {
    && answers != []
    && var last := answers[|answers| - 1];
       || last == Rejected || last == PublicationPanics
       || (NoTaskFound(last) && exists i | 0 <= i < |answers| :: answers[i].NotStored?)
  }

  /** The last answer was this id, or the planner has been started for the call's own. */
  predicate EndsWith(own: TaskId, answers: seq<Answer>, id: TaskId) {
    answers != [] && (answers[|answers| - 1] == Found(id) || (answers[|answers| - 1] == PlannerStarted && id == own))
  }

  /** What the answers taken so far say of where the code is. */
  ghost predicate EndsThere(own: TaskId, answers: seq<Answer>, pc: Pc) {
    && (pc == Failed <==> EndsInError(answers))
    && (forall id :: pc == Returned(id) <==> EndsWith(own, answers, id))
    && (pc == Colliding ==> answers != [] && answers[|answers| - 1].NotStored?)
    && (!Over(pc) && pc != Colliding ==> forall i | 0 <= i < |answers| :: !answers[i].NotStored?)
  }

  /** Whatever answers the code has taken so far, these say whether and how it has ended. */
  lemma {:induction false} EndIs(own: TaskId, answers: seq<Answer>)
    requires AdvanceAll(Checking, own, answers).Some?
    ensures EndsThere(own, answers, AdvanceAll(Checking, own, answers).value)
  {
    if answers != [] {
      hide EndsThere, Advance;
      var n := |answers| - 1;
      EndIs(own, answers[..n]);
      assert answers == answers[..n] + [answers[n]];
      NextEnd(own, answers[..n], AdvanceAll(Checking, own, answers[..n]).value, answers[n]);
    }
  }

  lemma NextEnd(own: TaskId, answers: seq<Answer>, pc: Pc, a: Answer)
    requires EndsThere(own, answers, pc) && Advance(pc, own, a).Some?
    ensures EndsThere(own, answers + [a], Advance(pc, own, a).value)
  {
    var now := answers + [a];
    assert forall i | 0 <= i < |answers| :: now[i] == answers[i];
    if a.NotStored? {
      assert now[|answers|].NotStored?;
    }
    if pc == Colliding {
      assert now[|answers| - 1].NotStored?;
    }
  }

  /** What one call has been answered in a run. */
  function AnswersTo(steps: seq<Step>, c: CallId): seq<Answer> {
    if steps == [] then []
    else
      (if steps[0].Reply? && steps[0].call == c then [steps[0].answer] else []) + AnswersTo(steps[1..], c)
  }

  lemma {:induction false} AdvanceOn(pc: Pc, own: TaskId, a: seq<Answer>, b: seq<Answer>)
    requires AdvanceAll(pc, own, a).Some?
    ensures AdvanceAll(pc, own, a + b) == AdvanceAll(AdvanceAll(pc, own, a).value, own, b)
  {
    hide Advance;
    if b == [] {
      assert a + b == a;
    } else {
      var n := |b| - 1;
      AdvanceOn(pc, own, a, b[..n]);
      assert (a + b)[..|a + b| - 1] == a + b[..n];
    }
  }

  lemma StepOnCall(s: State, step: Step, c: CallId)
    requires Enabled(s, step) && c in Apply(s, step).calls
    ensures var call := Apply(s, step).calls[c];
            if c !in s.calls then !step.Reply? && call.pc == Checking
            else
              call.own == s.calls[c].own
              && (if step.Reply? && step.call == c then Advance(s.calls[c].pc, call.own, step.answer) == Some(call.pc)
                  else call.pc == s.calls[c].pc)
  {
    hide Advance, CanAnswer;
  }

  lemma OnlyCallsAreAnswered(s: State, step: Step)
    requires Enabled(s, step) && step.Reply?
    ensures step.call in s.calls && step.call in Apply(s, step).calls
  {
  }

  lemma FirstAnswer(pc: Pc, own: TaskId, a: Answer, rest: seq<Answer>)
    requires Advance(pc, own, a).Some?
    ensures AdvanceAll(pc, own, [a] + rest) == AdvanceAll(Advance(pc, own, a).value, own, rest)
  {
    hide Advance;
    assert [a][..0] == [];
    assert AdvanceAll(pc, own, [a]) == Advance(pc, own, a);
    AdvanceOn(pc, own, [a], rest);
  }

  /** Every call of a run is where its answers have brought it. */
  lemma {:induction false} CallIsWhereAnswersLead(s: State, steps: seq<Step>, c: CallId)
    requires Possible(s, steps) && c in After(s, steps).calls
    ensures var call := After(s, steps).calls[c]; var pc := if c in s.calls then s.calls[c].pc else Checking;
            AdvanceAll(pc, call.own, AnswersTo(steps, c)) == Some(call.pc)
    ensures c in s.calls ==> After(s, steps).calls[c].own == s.calls[c].own
    decreases |steps|
  {
    hide Advance, Apply, Enabled, AdvanceAll;
    if steps == [] {
      Unanswered(s, c);
    } else {
      var step, rest := steps[0], AnswersTo(steps[1..], c);
      var s' := Apply(s, step);
      CallIsWhereAnswersLead(s', steps[1..], c);
      if c in s'.calls {
        StepOnCall(s, step, c);
      }
      if step.Reply? {
        OnlyCallsAreAnswered(s, step);
      }
      if step.Reply? && step.call == c {
        FirstAnswer(s.calls[c].pc, s.calls[c].own, step.answer, rest);
      } else {
        assert AnswersTo(steps, c) == [] + rest == rest;
        if c in s.calls {
          CallsStay(s, step, c);
        }
      }
    }
  }

  lemma Unanswered(s: State, c: CallId)
    requires c in s.calls
    ensures AdvanceAll(s.calls[c].pc, s.calls[c].own, []) == Some(s.calls[c].pc)
  {
  }

  lemma CallsStay(s: State, step: Step, c: CallId)
    requires Enabled(s, step) && c in s.calls
    ensures c in Apply(s, step).calls
  {
  }

  /**
    On every run, with either kind of store: a caller gets an error if and only if its request was
    refused, or the event of the creation panicked, or the store reported an error and no task was found
    afterwards; and it gets an id if and only if that id was found last, or is its own and has a planner.
   */
  lemma OnlyThenAnError(refusing: bool, steps: seq<Step>, c: CallId)
    requires Possible(Start(refusing), steps) && c in After(Start(refusing), steps).calls
    ensures var call, answers := After(Start(refusing), steps).calls[c], AnswersTo(steps, c);
            && (call.pc == Failed <==> EndsInError(answers))
            && (forall id :: call.pc == Returned(id) <==> EndsWith(call.own, answers, id))
  {
    CallIsWhereAnswersLead(Start(refusing), steps, c);
    EndIs(After(Start(refusing), steps).calls[c].own, AnswersTo(steps, c));
  }

  /**
    In every state: an answer the code waits for can come if and only if it is the truth about the store.
    Lookups find the task that the hash leads to, or miss when there is none; a refusing store takes a
    task only for a new hash. Locks, lookups and creations can fail at any time.
   */
  lemma AnswersAreTheTruth(s: State, c: CallId, a: Answer)
    requires c in s.calls && Advance(s.calls[c].pc, s.calls[c].own, a).Some?
    ensures var h := s.calls[c].hash;
            Enabled(s, Reply(c, a)) <==>
              && (a.Found? ==> h in s.index && s.index[h] == a.id)
              && (a.Missing? ==> h !in s.index)
              && (a == Stored || a == NotStored(true) ==> !s.refusing || h !in s.index)
  {
    hide Advance;
  }

  // ---------------------------------------------------------------- whole stories

  /** How the call comes to its lookup: with the lock, without one because it failed, or after waiting. */
  datatype Way = WithLock | WithoutLock | Waited(polls: nat, lookupFailed: bool)

  /** What comes of the creation. */
  datatype Creation =
    | Made
    | MadeUnannounced
    | TakenBefore(kept: bool, id: TaskId)
    | Lost(kept: bool, again: Answer)

  /** Everything a call can go through, from its first check to its end. */
  datatype Story =
    | Refused
    | FoundWaiting(polls: nat, id: TaskId)
    | FoundByLookup(way: Way, id: TaskId)
    | Created(way: Way, lookup: Answer, creation: Creation)

  /** The lookup before a creation, and the one after a failed one, found nothing. */
  predicate Proper(story: Story) {
    story.Created? ==> NoTaskFound(story.lookup) && (story.creation.Lost? ==> NoTaskFound(story.creation.again))
  }

  function Polls(n: nat): seq<Answer> {
    if n == 0 then [] else Polls(n - 1) + [Missing(false)]
  }

  /** The last answer ends the waiting: the deadline or the caller's leaving, or a lookup that fails. */
  function WayTold(way: Way): seq<Answer> {
    match way
    case WithLock => [Admitted, LockAcquired]
    case WithoutLock => [Admitted, LockFailed]
    case Waited(polls, lookupFailed) =>
      [Admitted, LockTaken] + Polls(polls) + [if lookupFailed then LookupFailed else Missing(true)]
  }

  function CreationTold(creation: Creation): seq<Answer> {
    match creation
    case Made => [Stored, EventSent, PlannerStarted]
    case MadeUnannounced => [Stored, PublicationPanics]
    case TakenBefore(kept, id) => [NotStored(kept), Found(id)]
    case Lost(kept, again) => [NotStored(kept), again]
  }

  function Told(story: Story): seq<Answer> {
    match story
    case Refused => [Rejected]
    case FoundWaiting(polls, id) => [Admitted, LockTaken] + Polls(polls) + [Found(id)]
    case FoundByLookup(way, id) => WayTold(way) + [Found(id)]
    case Created(way, lookup, creation) => WayTold(way) + [lookup] + CreationTold(creation)
  }

  function Gets(own: TaskId, creation: Creation): Option<TaskId> {
    match creation
    case Made => Some(own)
    case MadeUnannounced => None
    case TakenBefore(_, id) => Some(id)
    case Lost(_, _) => None
  }

  /** What the caller gets. */
  function Result(own: TaskId, story: Story): Option<TaskId> {
    match story
    case Refused => None
    case FoundWaiting(_, id) => Some(id)
    case FoundByLookup(_, id) => Some(id)
    case Created(_, _, creation) => Gets(own, creation)
  }

  function EndOf(result: Option<TaskId>): Pc {
    if result.Some? then Returned(result.value) else Failed
  }

  lemma Answered(pc: Pc, own: TaskId, before: seq<Answer>, a: Answer)
    requires AdvanceAll(pc, own, before).Some?
    ensures AdvanceAll(pc, own, before + [a]) == Advance(AdvanceAll(pc, own, before).value, own, a)
  {
    hide Advance;
    assert (before + [a])[..|before|] == before;
  }

  lemma {:induction false} Polling(own: TaskId, n: nat)
    ensures AdvanceAll(Checking, own, [Admitted, LockTaken] + Polls(n)) == Some(WaitingForOther)
  {
    var start := [Admitted, LockTaken];
    if n == 0 {
      TwoAnswers(Checking, own, Admitted, LockTaken);
      assert start + [] == start;
    } else {
      Polling(own, n - 1);
      Answered(Checking, own, start + Polls(n - 1), Missing(false));
      assert start + Polls(n) == start + Polls(n - 1) + [Missing(false)];
    }
  }

  lemma TwoAnswers(pc: Pc, own: TaskId, a: Answer, b: Answer)
    ensures AdvanceAll(pc, own, [a, b]) ==
              match Advance(pc, own, a) case None => None case Some(next) => Advance(next, own, b)
  {
    hide Advance;
    assert [a, b][..1] == [a] && [a][..0] == [];
    assert AdvanceAll(pc, own, [a]) == Advance(pc, own, a);
  }

  lemma {:induction false} ComesToLookup(own: TaskId, way: Way)
    ensures AdvanceAll(Checking, own, WayTold(way)) == Some(LookingUp)
  {
    match way {
      case WithLock => TwoAnswers(Checking, own, Admitted, LockAcquired);
      case WithoutLock => TwoAnswers(Checking, own, Admitted, LockFailed);
      case Waited(polls, lookupFailed) =>
        Polling(own, polls);
        Answered(Checking, own, [Admitted, LockTaken] + Polls(polls), if lookupFailed then LookupFailed
            else Missing(true));
    }
  }

  lemma {:induction false} Creates(own: TaskId, before: seq<Answer>, creation: Creation)
    requires AdvanceAll(Checking, own, before) == Some(Creating)
    requires creation.Lost? ==> NoTaskFound(creation.again)
    ensures AdvanceAll(Checking, own, before + CreationTold(creation)) == Some(EndOf(Gets(own, creation)))
  {
    var told := CreationTold(creation);
    var two := [told[0], told[1]];
    TwoAnswers(Creating, own, told[0], told[1]);
    if creation.Made? {
      Answered(Creating, own, two, told[2]);
      assert two + [told[2]] == told;
    } else {
      assert told == two;
    }
    hide Advance, AdvanceAll;
    AdvanceOn(Checking, own, before, told);
  }

  /** Every story is one the code goes along with, and its caller gets what the story says. */
  lemma {:induction false} StoryIsCall(own: TaskId, story: Story)
    requires Proper(story)
    ensures AdvanceAll(Checking, own, Told(story)) == Some(EndOf(Result(own, story)))
  {
    match story {
      case Refused => assert [Rejected][..0] == [];
      case FoundWaiting(polls, id) =>
        hide AdvanceAll, Polls;
        Polling(own, polls);
        Answered(Checking, own, [Admitted, LockTaken] + Polls(polls), Found(id));
      case FoundByLookup(way, id) =>
        hide AdvanceAll, WayTold;
        ComesToLookup(own, way);
        Answered(Checking, own, WayTold(way), Found(id));
      case Created(way, lookup, creation) =>
        hide AdvanceAll, WayTold, CreationTold, Gets;
        ComesToLookup(own, way);
        Answered(Checking, own, WayTold(way), lookup);
        Creates(own, WayTold(way) + [lookup], creation);
    }
  }

  // ---------------------------------------------------------------- and no others

  /** The call has been answered this far. */
  lemma SoFar(answers: seq<Answer>, n: nat, told: seq<Answer>)
    requires n < |answers| && answers[..n] == told
    ensures answers[..n + 1] == told + [answers[n]]
  {
  }

  /** From the lookup on: the story ends in one of the ways of the text. */
  lemma {:induction false} RestOfStory(own: TaskId, answers: seq<Answer>, n: nat, way: Way) returns (story: Story)
    requires WholeCall(own, answers) && At(own, answers, n, LookingUp) && answers[..n] == WayTold(way)
    ensures Proper(story) && Told(story) == answers
  {
    hide AdvanceAll, WayTold, CreationTold;
    OneMore(own, answers, n, LookingUp);
    SoFar(answers, n, WayTold(way));
    if answers[n].Found? {
      OneMore(own, answers, n + 1, Returned(answers[n].id));
      story := FoundByLookup(way, answers[n].id);
      assert answers[..n + 1] == answers;
    } else {
      var creation := RestOfCreation(own, answers, n + 1);
      story := Created(way, answers[n], creation);
      assert answers == answers[..n + 1] + answers[n + 1..];
    }
  }

  lemma {:induction false} RestOfCreation(own: TaskId, answers: seq<Answer>, n: nat) returns (creation: Creation)
    requires WholeCall(own, answers) && At(own, answers, n, Creating)
    ensures answers[n..] == CreationTold(creation)
    ensures creation.Lost? ==> NoTaskFound(creation.again)
  {
    hide AdvanceAll;
    OneMore(own, answers, n, Creating);
    if answers[n] == Stored {
      OneMore(own, answers, n + 1, Announcing);
      if answers[n + 1] == PublicationPanics {
        OneMore(own, answers, n + 2, Failed);
        creation := MadeUnannounced;
      } else {
        OneMore(own, answers, n + 2, Starting);
        OneMore(own, answers, n + 3, Returned(own));
        creation := Made;
      }
    } else {
      OneMore(own, answers, n + 1, Colliding);
      var again := answers[n + 1];
      OneMore(own, answers, n + 2, if again.Found? then Returned(again.id) else Failed);
      creation := if again.Found? then TakenBefore(answers[n].kept, again.id) else Lost(answers[n].kept, again);
    }
  }

  lemma {:induction false} RestOfWaiting(own: TaskId, answers: seq<Answer>, n: nat, polls: nat) returns (story: Story)
    requires WholeCall(own, answers) && At(own, answers, n, WaitingForOther)
    requires answers[..n] == [Admitted, LockTaken] + Polls(polls)
    ensures Proper(story) && Told(story) == answers
    decreases |answers| - n
  {
    hide AdvanceAll;
    OneMore(own, answers, n, WaitingForOther);
    SoFar(answers, n, [Admitted, LockTaken] + Polls(polls));
    match answers[n] {
      case Found(id) =>
        OneMore(own, answers, n + 1, Returned(id));
        story := FoundWaiting(polls, id);
        assert answers[..n + 1] == answers;
      case Missing(giveUp) =>
        if giveUp {
          story := RestOfStory(own, answers, n + 1, Waited(polls, false));
        } else {
          assert [Admitted, LockTaken] + Polls(polls) + [Missing(false)] == [Admitted, LockTaken] + Polls(polls + 1);
          story := RestOfWaiting(own, answers, n + 1, polls + 1);
        }
      case LookupFailed => story := RestOfStory(own, answers, n + 1, Waited(polls, true));
    }
  }

  lemma {:induction false} CallIsStory(own: TaskId, answers: seq<Answer>) returns (story: Story)
    requires WholeCall(own, answers)
    ensures Proper(story) && Told(story) == answers
  {
    assert answers[..0] == [];
    OneMore(own, answers, 0, Checking);
    if answers[0] == Rejected {
      OneMore(own, answers, 1, Failed);
      story := Refused;
    } else {
      OneMore(own, answers, 1, Locking);
      assert answers[..2] == [Admitted, answers[1]];
      match answers[1] {
        case LockAcquired => story := RestOfStory(own, answers, 2, WithLock);
        case LockFailed => story := RestOfStory(own, answers, 2, WithoutLock);
        case LockTaken =>
          assert [Admitted, LockTaken] + [] == [Admitted, LockTaken];
          story := RestOfWaiting(own, answers, 2, 0);
      }
    }
  }

  /**
    What the code of one call does, whatever its surroundings reply: it goes through exactly the stories of
    this file, and its caller gets what the story says.
   */
  lemma CallsAreStories(own: TaskId, answers: seq<Answer>, result: Option<TaskId>)
    ensures At(own, answers, |answers|, EndOf(result)) <==>
              exists story :: Proper(story) && Told(story) == answers && Result(own, story) == result
  {
    hide AdvanceAll, Told, Result;
    assert answers[..|answers|] == answers;
    if At(own, answers, |answers|, EndOf(result)) {
      assert WholeCall(own, answers);
      var story := CallIsStory(own, answers);
      StoryIsCall(own, story);
    }
    if story :| Proper(story) && Told(story) == answers && Result(own, story) == result {
      StoryIsCall(own, story);
    }
  }
}
