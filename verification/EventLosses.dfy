/** How many live events a subscriber's channel has room for, and so which can be lost to a full buffer. */
module EventLosses {
  import opened EventBus
  import opened EventDelivery
  import opened Wrappers

  /** The channel holds what was replayed and 16 events more, and none of the first 16 was lost to it. */
  ghost predicate HasRoom(b: Inbox) {
    && b.channel.capacity == (if b.joined <= 100 then b.joined else 100) + 16
    && forall n | n in b.overflowed :: n > b.joined + 16
  }

  ghost predicate AllHaveRoom(s: State) {
    forall c | c in s.inboxes :: HasRoom(s.inboxes[c])
  }

  /** A window of an interval has no more events than the interval. */
  lemma {:induction false} WindowFits(log: seq<TaskEvent>, lo: nat, hi: nat, gone: set<nat>)
    requires hi <= |log|
    ensures |Window(log, lo, hi, gone)| <= if hi > lo then hi - lo else 0
  {
    if hi > lo {
      WindowFits(log, lo, hi - 1, gone);
    }
  }

  lemma DealtHasRoom(log: seq<TaskEvent>, b: Inbox, e: TaskEvent)
    requires HasRoom(b) && Served(log, b) && e.sequence == b.dealt + 1
    ensures HasRoom(Dealt(b, e))
  {
    WindowFits(log, ReplayStart(b.joined), b.dealt, Gone(b));
    hide Window, Gone;
  }

  lemma OpenedHasRoom(s: State)
    requires s.topic.history == LastOf(s.log, EVENT_HISTORY_LIMIT)
    ensures HasRoom(Joining(s.topic, |s.log|))
  {
  }

  lemma {:induction false} StepKeepsRoom(s: State, step: Step)
    requires Inv(s) && AllHaveRoom(s) && Enabled(s, step)
    ensures AllHaveRoom(Apply(s, step))
  {
    hide Served, Dealt, HasRoom, Joining;
    if step.Subscribe? {
      OpenedHasRoom(s);
    } else if step.Send? {
      assert InTurn(s, step.c) && Served(s.log, s.inboxes[step.c]);
      DealtHasRoom(s.log, s.inboxes[step.c], s.sending.value.event);
    } else {
      forall c | c in s.inboxes
        ensures HasRoom(Apply(s, step).inboxes[c])
      {
        OthersHaveRoom(s, step, c);
      }
    }
  }

  lemma OthersHaveRoom(s: State, step: Step, c: ChanId)
    requires Enabled(s, step) && !step.Send? && !step.Subscribe? && c in s.inboxes && HasRoom(s.inboxes[c])
    ensures HasRoom(Apply(s, step).inboxes[c])
  {
  }

  lemma {:induction false} RunKeepsRoom(s: State, steps: seq<Step>)
    requires Inv(s) && AllHaveRoom(s) && Possible(s, steps)
    ensures AllHaveRoom(After(s, steps))
    decreases |steps|
  {
    hide Inv, AllHaveRoom, Apply, Enabled;
    if steps != [] {
      StepKeepsInv(s, steps[0]);
      StepKeepsRoom(s, steps[0]);
      RunKeepsRoom(Apply(s, steps[0]), steps[1..]);
    }
  }

  lemma NobodyAtTheStart()
    ensures Inv(START) && AllHaveRoom(START)
  {
    StartInv();
  }

  /** On every run no subscriber loses any of the first 16 events after it joined to a full buffer. */
  lemma FirstSixteenArrive(steps: seq<Step>, c: ChanId)
    requires Possible(START, steps) && c in After(START, steps).inboxes
    ensures var b := After(START, steps).inboxes[c];
            forall n | n in b.overflowed :: n > b.joined + 16
  {
    NobodyAtTheStart();
    RunKeepsRoom(START, steps);
    hide Possible, After;
    assert HasRoom(After(START, steps).inboxes[c]);
  }

  /** The i-th event given is not one of the i first ones it could have been. */
  lemma {:induction false} NumbersGrow(w: seq<TaskEvent>, lo: nat, i: nat)
    requires Increasing(w) && i < |w| && forall e | e in w :: e.sequence > lo
    ensures w[i].sequence > lo + i
  {
    if i > 0 {
      NumbersGrow(w, lo, i - 1);
      assert w[i - 1].sequence < w[i].sequence;
    } else {
      assert w[0] in w;
    }
  }

  /**
    On every run, a send that loses its event to a full buffer finds at least 16 events there that were
    published after the subscriber joined, and that it has not read yet.
   */
  lemma LossNeedsSixteenUnread(steps: seq<Step>, step: Step, c: ChanId)
    requires Possible(START, steps) && Enabled(After(START, steps), step) && c in After(START, steps).inboxes
    requires var s := After(START, steps);
             c in Apply(s, step).inboxes && Apply(s, step).inboxes[c].overflowed != s.inboxes[c].overflowed
    ensures var b := After(START, steps).inboxes[c]; var n := |b.channel.buffer|;
            n >= 16 && forall i | n - 16 <= i < n :: b.channel.buffer[i].sequence > b.joined
  {
    NobodyAtTheStart();
    RunKeepsInv(START, steps);
    RunKeepsRoom(START, steps);
    hide Possible, After;
    UnreadAtLoss(After(START, steps), step, c);
  }

  lemma UnreadAtLoss(s: State, step: Step, c: ChanId)
    requires Inv(s) && AllHaveRoom(s) && Enabled(s, step) && c in s.inboxes
    requires c in Apply(s, step).inboxes && Apply(s, step).inboxes[c].overflowed != s.inboxes[c].overflowed
    ensures var b := s.inboxes[c]; var n := |b.channel.buffer|;
            n >= 16 && forall i | n - 16 <= i < n :: b.channel.buffer[i].sequence > b.joined
  {
    LossNeedsFullBuffer(s, step, c);
    var b := s.inboxes[c];
    assert HasRoom(b) && Served(s.log, b);
    WindowMeaning(s.log, ReplayStart(b.joined), b.dealt, Gone(b));
    hide Inv, AllHaveRoom, Enabled, Apply, Window, Gone, Increasing;
    var given, n := Given(b), |b.channel.buffer|;
    forall i | n - 16 <= i < n
      ensures b.channel.buffer[i].sequence > b.joined
    {
      NumbersGrow(given, ReplayStart(b.joined), |b.taken| + i);
      assert given[|b.taken| + i] == b.channel.buffer[i];
    }
  }

  // ---------------------------------------------------------------- and no more than sixteen

  lemma {:induction false} RunsCompose(s: State, a: seq<Step>, b: seq<Step>)
    requires Possible(s, a) && Possible(After(s, a), b)
    ensures Possible(s, a + b) && After(s, a + b) == After(After(s, a), b)
    decreases |a|
  {
    hide Apply, Enabled;
    if a == [] {
      assert a + b == b;
    } else {
      RunsCompose(Apply(s, a[0]), a[1..], b);
      assert (a + b)[0] == a[0] && (a + b)[1..] == a[1..] + b;
    }
  }

  /** One step more at the end of a run. */
  lemma Then(steps: seq<Step>, step: Step) returns (more: seq<Step>)
    requires Possible(START, steps) && Enabled(After(START, steps), step)
    ensures Possible(START, more) && After(START, more) == Apply(After(START, steps), step)
  {
    hide Apply, Enabled;
    more := steps + [step];
    RunsCompose(START, steps, [step]);
  }

  /** One subscriber, who joined before the first event, with k events before it unread. */
  ghost predicate Unread(s: State, k: nat) {
    && s.inboxes.Keys == {1} && s.topic.subscribers == {1} && !Busy(s)
    && s.topic.count == k
    && var b := s.inboxes[1];
       b.joined == 0 && |b.channel.buffer| == k && b.channel.capacity == 16 && !b.channel.closed && b.overflowed == {}
  }

  /** A subscriber that does not read has k events waiting, for every k up to 16. */
  lemma {:induction false} Wait(e: TaskEvent, k: nat) returns (steps: seq<Step>)
    requires k <= 16
    ensures Possible(START, steps) && Unread(After(START, steps), k)
  {
    hide Possible, After;
    if k == 0 {
      Nothing();
      steps := Then([], Subscribe(1));
    } else {
      steps := Wait(e, k - 1);
      steps := Then(steps, Snapshot(e));
      steps := Then(steps, Send(1));
    }
  }

  lemma Nothing()
    ensures Possible(START, []) && After(START, []) == START
  {
  }

  /** It can happen that the seventeenth event after joining is lost. */
  lemma SeventeenthCanBeLost(e: TaskEvent) returns (steps: seq<Step>)
    ensures Possible(START, steps)
    ensures var s := After(START, steps);
            1 in s.inboxes && s.inboxes[1].joined == 0 && s.inboxes[1].overflowed == {17}
  {
    steps := Wait(e, 16);
    hide Possible, After;
    steps := Then(steps, Snapshot(e));
    steps := Then(steps, Send(1));
  }
}
