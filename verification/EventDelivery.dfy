/**
  Publishing and subscribing interleaved (internal/travel/event_bus.go): one task, one publisher,
  any number of subscribers. Publish is a snapshot under the lock and then one send per subscriber,
  with anything in between.
 */
module EventDelivery {
  import opened EventBus
  import opened Wrappers

  /** A publication whose sends are under way. */
  datatype Sending = Sending(event: TaskEvent, todo: set<ChanId>)

  /**
    One subscriber: its channel, what its reader took, how many events existed when it joined and how
    many it has been dealt, and the numbers it lost to a full buffer or to a publication given up.
   */
  datatype Inbox = Inbox(
    channel: Channel,
    taken: seq<TaskEvent>,
    joined: nat,
    dealt: nat,
    overflowed: set<nat>,
    skipped: set<nat>)

  /**
    `log` has every event published so far, `left` the channels closed since the last snapshot, and
    `broken` tells whether a send ever met a closed channel.
   */
  datatype State = State(
    topic: Topic,
    inboxes: map<ChanId, Inbox>,
    sending: Option<Sending>,
    log: seq<TaskEvent>,
    left: set<ChanId>,
    broken: bool)

  const START := State(EMPTY_TOPIC, map[], None, [], {}, false)

  datatype Step =
    | Snapshot(event: TaskEvent)
    | Send(c: ChanId)
    | SendToClosed(c: ChanId)
    | Subscribe(c: ChanId)
    | Unsubscribe(c: ChanId)
    | Take(c: ChanId)

  predicate Busy(s: State) {
    s.sending.Some? && s.sending.value.todo != {}
  }

  predicate Waiting(s: State, c: ChanId) {
    s.sending.Some? && c in s.sending.value.todo
  }

  function Dealt(b: Inbox, e: TaskEvent): Inbox {
    b.(channel := Offered(b.channel, e), dealt := e.sequence,
       overflowed := b.overflowed + if |b.channel.buffer| < b.channel.capacity then {} else {e.sequence})
  }

  function Skipped(b: Inbox, e: TaskEvent): Inbox {
    b.(dealt := e.sequence, skipped := b.skipped + {e.sequence})
  }

  function Joining(t: Topic, n: nat): Inbox {
    Inbox(Opened(t), [], n, n, {}, {})
  }

  function Taking(b: Inbox): Inbox
    requires b.channel.buffer != []
  {
    b.(channel := b.channel.(buffer := b.channel.buffer[1..]), taken := b.taken + [b.channel.buffer[0]])
  }

  predicate Enabled(s: State, step: Step) {
    match step
    case Snapshot(_) => !Busy(s)
    case Send(c) => Waiting(s, c) && c in s.inboxes && !s.inboxes[c].channel.closed
    case SendToClosed(c) => Waiting(s, c) && c in s.inboxes && s.inboxes[c].channel.closed
    case Subscribe(c) => c !in s.inboxes
    case Unsubscribe(c) => c in s.topic.subscribers && c in s.inboxes
    case Take(c) => c in s.inboxes && s.inboxes[c].channel.buffer != []
  }

  function Apply(s: State, step: Step): State
    requires Enabled(s, step)
  {
    match step
    case Snapshot(event) =>
      var stamped := Stamped(s.topic, event);
      s.(topic := Recorded(s.topic, event), sending := Some(Sending(stamped, s.topic.subscribers)),
         log := s.log + [stamped], left := {})
    case Send(c) =>
      var event := s.sending.value.event;
      s.(inboxes := s.inboxes[c := Dealt(s.inboxes[c], event)],
         sending := Some(Sending(event, s.sending.value.todo - {c})))
    case SendToClosed(c) =>
      // The panic gives up the publication: nobody who is still waiting for the event gets it.
      var event, todo := s.sending.value.event, s.sending.value.todo;
      s.(sending := None, broken := true,
         inboxes := map d | d in s.inboxes :: if d in todo then Skipped(s.inboxes[d], event) else s.inboxes[d])
    case Subscribe(c) =>
      s.(inboxes := s.inboxes[c := Joining(s.topic, |s.log|)],
         topic := s.topic.(subscribers := s.topic.subscribers + {c}))
    case Unsubscribe(c) =>
      var b := s.inboxes[c];
      s.(inboxes := s.inboxes[c := b.(channel := b.channel.(closed := true))],
         topic := s.topic.(subscribers := s.topic.subscribers - {c}),
         left := s.left + {c})
    case Take(c) =>
      s.(inboxes := s.inboxes[c := Taking(s.inboxes[c])])
  }

  ghost predicate Possible(s: State, steps: seq<Step>)
    decreases |steps|
  {
    steps == [] || (Enabled(s, steps[0]) && Possible(Apply(s, steps[0]), steps[1..]))
  }

  ghost function After(s: State, steps: seq<Step>): State
    requires Possible(s, steps)
    decreases |steps|
  {
    if steps == [] then s else After(Apply(s, steps[0]), steps[1..])
  }

  // ---------------------------------------------------------------- what a subscriber is given

  /** Events number lo+1 to hi of the log, except the ones whose numbers are in `gone`. */
  function Window(log: seq<TaskEvent>, lo: nat, hi: nat, gone: set<nat>): seq<TaskEvent>
    requires hi <= |log|
  {
    if hi <= lo then [] else Window(log, lo, hi - 1, gone) + (if hi in gone then [] else [log[hi - 1]])
  }

  function Min(a: nat, b: nat): nat {
    if a <= b then a else b
  }

  /** Where the replay of a subscriber that joined after n events begins. */
  function ReplayStart(n: nat): nat {
    n - Min(n, EVENT_HISTORY_LIMIT)
  }

  predicate Numbered(log: seq<TaskEvent>) {
    forall i | 0 <= i < |log| :: log[i].sequence == i + 1
  }

  function Gone(b: Inbox): set<nat> {
    b.overflowed + b.skipped
  }

  /** Replay then live: the events since the replay began, in order, minus the recorded losses. */
  ghost predicate Served(log: seq<TaskEvent>, b: Inbox) {
    && b.joined <= b.dealt <= |log|
    && (forall n | n in Gone(b) :: b.joined < n <= b.dealt)
    && b.taken + b.channel.buffer == Window(log, ReplayStart(b.joined), b.dealt, Gone(b))
  }

  /** Whoever awaits the event being sent has been dealt all others; any other subscriber has been dealt all. */
  predicate InTurn(s: State, c: ChanId)
    requires c in s.inboxes
  {
    var b := s.inboxes[c];
    && (Waiting(s, c) ==> b.dealt == |s.log| - 1)
    && (!Waiting(s, c) && c in s.topic.subscribers ==> b.dealt == |s.log|)
    && (b.channel.closed <==> c !in s.topic.subscribers)
    && (Waiting(s, c) && b.channel.closed ==> c in s.left)
    && (!s.broken ==> b.skipped == {})
    && (s.sending.Some? ==> |s.log| !in b.skipped)
  }

  ghost predicate Inv(s: State) {
    && Numbered(s.log)
    && s.topic.count == |s.log|
    && s.topic.history == LastOf(s.log, EVENT_HISTORY_LIMIT)
    && s.topic.subscribers <= s.inboxes.Keys
    && (s.sending.Some? ==>
          s.log != [] && s.sending.value.event == s.log[|s.log| - 1] && s.sending.value.todo <= s.inboxes.Keys)
    && (forall c | c in s.inboxes :: Served(s.log, s.inboxes[c]))
    && (forall c | c in s.inboxes :: InTurn(s, c))
  }

  lemma {:induction false} WindowOfLongerLog(log: seq<TaskEvent>, more: seq<TaskEvent>, lo: nat, hi: nat,
      gone: set<nat>)
    requires hi <= |log|
    ensures Window(log + more, lo, hi, gone) == Window(log, lo, hi, gone)
  {
    if hi > lo {
      WindowOfLongerLog(log, more, lo, hi - 1, gone);
    }
  }

  lemma {:induction false} WindowIgnoresLaterLosses(log: seq<TaskEvent>, lo: nat, hi: nat, gone: set<nat>, n: nat)
    requires hi <= |log| && hi < n
    ensures Window(log, lo, hi, gone + {n}) == Window(log, lo, hi, gone)
  {
    if hi > lo {
      WindowIgnoresLaterLosses(log, lo, hi - 1, gone, n);
    }
  }

  lemma {:induction false} WholeWindow(log: seq<TaskEvent>, lo: nat, hi: nat)
    requires lo <= hi <= |log|
    ensures Window(log, lo, hi, {}) == log[lo..hi]
  {
    if hi > lo {
      WholeWindow(log, lo, hi - 1);
      assert log[lo..hi] == log[lo..hi - 1] + [log[hi - 1]];
    }
  }

  lemma StartInv()
    ensures Inv(START)
  {
  }

  lemma ServedByLongerLog(log: seq<TaskEvent>, e: TaskEvent, b: Inbox)
    requires Served(log, b)
    ensures Served(log + [e], b)
    ensures |log| + 1 !in b.skipped
  {
    WindowOfLongerLog(log, [e], ReplayStart(b.joined), b.dealt, Gone(b));
    assert |log| + 1 in b.skipped ==> |log| + 1 in Gone(b);
  }

  lemma DealtIsServed(log: seq<TaskEvent>, b: Inbox)
    requires Numbered(log) && log != [] && Served(log, b) && b.dealt == |log| - 1
    ensures Served(log, Dealt(b, log[|log| - 1]))
  {
    var n := |log|;
    var b' := Dealt(b, log[n - 1]);
    WindowIgnoresLaterLosses(log, ReplayStart(b.joined), n - 1, Gone(b), n);
    assert Gone(b') == if |b.channel.buffer| < b.channel.capacity then Gone(b) else Gone(b) + {n};
  }

  lemma SkippedIsServed(log: seq<TaskEvent>, b: Inbox)
    requires Numbered(log) && log != [] && Served(log, b) && b.dealt == |log| - 1
    ensures Served(log, Skipped(b, log[|log| - 1]))
  {
    var n := |log|;
    WindowIgnoresLaterLosses(log, ReplayStart(b.joined), n - 1, Gone(b), n);
    assert Gone(Skipped(b, log[n - 1])) == Gone(b) + {n};
  }

  lemma JoiningIsServed(log: seq<TaskEvent>, t: Topic)
    requires t.history == LastOf(log, EVENT_HISTORY_LIMIT)
    ensures Served(log, Joining(t, |log|))
  {
    var b := Joining(t, |log|);
    WholeWindow(log, ReplayStart(|log|), |log|);
    assert log[ReplayStart(|log|)..|log|] == t.history;
    assert Gone(b) == {};
  }

  lemma TakingIsServed(log: seq<TaskEvent>, b: Inbox)
    requires Served(log, b) && b.channel.buffer != []
    ensures Served(log, Taking(b))
  {
  }

  lemma SnapshotKeepsInv(s: State, event: TaskEvent)
    requires Inv(s) && Enabled(s, Snapshot(event))
    ensures Inv(Apply(s, Snapshot(event)))
  {
    hide Served;
    var s' := Apply(s, Snapshot(event));
    assert s'.topic.history == LastOf(s'.log, EVENT_HISTORY_LIMIT);
    forall c | c in s.inboxes
      ensures Served(s'.log, s'.inboxes[c]) && InTurn(s', c)
    {
      assert InTurn(s, c);
      ServedByLongerLog(s.log, Stamped(s.topic, event), s.inboxes[c]);
    }
  }

  lemma SendKeepsInv(s: State, step: Step)
    requires step.Send? || step.SendToClosed?
    requires Inv(s) && Enabled(s, step)
    ensures Inv(Apply(s, step))
  {
    hide Served, Skipped, Dealt;
    var s' := Apply(s, step);
    forall c | c in s.inboxes
      ensures Served(s'.log, s'.inboxes[c]) && InTurn(s', c)
    {
      var b := s.inboxes[c];
      assert InTurn(s, c);
      if Waiting(s, c) {
        DealtIsServed(s.log, b);
        SkippedIsServed(s.log, b);
        WhatSendsChange(b, s.log[|s.log| - 1]);
      }
    }
  }

  lemma WhatSendsChange(b: Inbox, e: TaskEvent)
    ensures Dealt(b, e).dealt == Skipped(b, e).dealt == e.sequence
    ensures Dealt(b, e).channel.closed == Skipped(b, e).channel.closed == b.channel.closed
    ensures Dealt(b, e).skipped == b.skipped && Skipped(b, e).skipped == b.skipped + {e.sequence}
  {
  }

  lemma SubscribeKeepsInv(s: State, c: ChanId)
    requires Inv(s) && Enabled(s, Subscribe(c))
    ensures Inv(Apply(s, Subscribe(c)))
  {
    hide Served, Opened;
    JoiningIsServed(s.log, s.topic);
    OpenedIsOpen(s.topic);
    var s' := Apply(s, Subscribe(c));
    assert forall d | d in s.inboxes :: InTurn(s, d);
    hide Numbered, LastOf;
  }

  lemma OpenedIsOpen(t: Topic)
    ensures !Opened(t).closed
  {
  }

  lemma {:induction false} LocalStepKeepsInv(s: State, step: Step)
    requires step.Unsubscribe? || step.Take?
    requires Inv(s) && Enabled(s, step)
    ensures Inv(Apply(s, step))
  {
    hide Served;
    var b := s.inboxes[step.c];
    if step.Take? {
      TakingIsServed(s.log, b);
    } else {
      ClosingIsServed(s.log, b);
    }
    var s' := Apply(s, step);
    forall c | c in s'.inboxes
      ensures Served(s'.log, s'.inboxes[c]) && InTurn(s', c)
    {
      assert InTurn(s, c);
    }
  }

  lemma ClosingIsServed(log: seq<TaskEvent>, b: Inbox)
    requires Served(log, b)
    ensures Served(log, b.(channel := b.channel.(closed := true)))
  {
  }

  lemma StepKeepsInv(s: State, step: Step)
    requires Inv(s) && Enabled(s, step)
    ensures Inv(Apply(s, step))
  {
    hide Inv, Apply;
    match step
    case Snapshot(event) => SnapshotKeepsInv(s, event);
    case Send(_) => SendKeepsInv(s, step);
    case SendToClosed(_) => SendKeepsInv(s, step);
    case Subscribe(c) => SubscribeKeepsInv(s, c);
    case Unsubscribe(_) => LocalStepKeepsInv(s, step);
    case Take(_) => LocalStepKeepsInv(s, step);
  }

  lemma {:induction false} RunKeepsInv(s: State, steps: seq<Step>)
    requires Inv(s) && Possible(s, steps)
    ensures Inv(After(s, steps))
    decreases |steps|
  {
    hide Inv, Apply, Enabled;
    if steps != [] {
      StepKeepsInv(s, steps[0]);
      RunKeepsInv(Apply(s, steps[0]), steps[1..]);
    }
  }

  // ---------------------------------------------------------------- for every run

  ghost predicate Increasing(w: seq<TaskEvent>) {
    forall i, j | 0 <= i < j < |w| :: w[i].sequence < w[j].sequence
  }

  /** The members of w are exactly the events number lo+1 to hi of the log whose numbers are not in `gone`. */
  ghost predicate Selects(w: seq<TaskEvent>, log: seq<TaskEvent>, lo: nat, hi: nat, gone: set<nat>) {
    && hi <= |log|
    && (forall e | e in w :: lo < e.sequence <= hi && e.sequence !in gone && e == log[e.sequence - 1])
    && (forall i | lo <= i < hi && i + 1 !in gone :: log[i] in w)
  }

  lemma {:induction false} WindowMeaning(log: seq<TaskEvent>, lo: nat, hi: nat, gone: set<nat>)
    requires Numbered(log) && hi <= |log|
    ensures Increasing(Window(log, lo, hi, gone)) && Selects(Window(log, lo, hi, gone), log, lo, hi, gone)
  {
    hide Increasing, Selects, Numbered;
    if hi <= lo {
      NothingToSelect(log, lo, hi, gone);
    } else {
      var w := Window(log, lo, hi - 1, gone);
      WindowMeaning(log, lo, hi - 1, gone);
      if hi in gone {
        assert w + [] == w;
        NoneMore(w, log, lo, hi, gone);
      } else {
        OneMore(w, log, lo, hi, gone);
      }
    }
  }

  lemma NothingToSelect(log: seq<TaskEvent>, lo: nat, hi: nat, gone: set<nat>)
    requires hi <= |log| && hi <= lo
    ensures Increasing([]) && Selects([], log, lo, hi, gone)
  {
  }

  lemma NoneMore(w: seq<TaskEvent>, log: seq<TaskEvent>, lo: nat, hi: nat, gone: set<nat>)
    requires lo < hi <= |log| && hi in gone && Selects(w, log, lo, hi - 1, gone)
    ensures Selects(w, log, lo, hi, gone)
  {
  }

  lemma {:induction false} OneMore(w: seq<TaskEvent>, log: seq<TaskEvent>, lo: nat, hi: nat, gone: set<nat>)
    requires Numbered(log) && lo < hi <= |log| && hi !in gone
    requires Increasing(w) && Selects(w, log, lo, hi - 1, gone)
    ensures Increasing(w + [log[hi - 1]]) && Selects(w + [log[hi - 1]], log, lo, hi, gone)
  {
    StillIncreasing(w, log, lo, hi, gone);
    StillSelects(w, log, lo, hi, gone);
  }

  lemma StillIncreasing(w: seq<TaskEvent>, log: seq<TaskEvent>, lo: nat, hi: nat, gone: set<nat>)
    requires Numbered(log) && lo < hi <= |log|
    requires Increasing(w) && Selects(w, log, lo, hi - 1, gone)
    ensures Increasing(w + [log[hi - 1]])
  {
    forall i | 0 <= i < |w|
      ensures w[i].sequence < hi
    {
      assert w[i] in w;
    }
  }

  lemma StillSelects(w: seq<TaskEvent>, log: seq<TaskEvent>, lo: nat, hi: nat, gone: set<nat>)
    requires Numbered(log) && lo < hi <= |log| && hi !in gone
    requires Selects(w, log, lo, hi - 1, gone)
    ensures Selects(w + [log[hi - 1]], log, lo, hi, gone)
  {
    var v := w + [log[hi - 1]];
    assert v[|w|] == log[hi - 1];
    forall i | lo <= i < hi && i + 1 !in gone
      ensures log[i] in v
    {
      assert i < hi - 1 ==> log[i] in w;
    }
  }

  /** The events a subscriber was given, taken and still waiting. */
  function Given(b: Inbox): seq<TaskEvent> {
    b.taken + b.channel.buffer
  }

  /**
    On every run, what a subscriber is given is strictly increasing (so nothing is both replayed and
    sent), is exactly what was published since the replay began, and has no gap besides the losses its
    inbox records. It reaches up to the last event published, for whoever still subscribes, or to the one
    before while that event is on its way. Only a run in which some send met a closed channel has losses
    other than full buffers.
   */
  lemma DeliveryIsOrderedAndComplete(steps: seq<Step>, c: ChanId)
    requires Possible(START, steps) && c in After(START, steps).inboxes
    ensures var s := After(START, steps);
            var b := s.inboxes[c];
            && Increasing(Given(b))
            && Selects(Given(b), s.log, if b.joined <= 100 then 0 else b.joined - 100, b.dealt,
                       b.overflowed + b.skipped)
            && (forall n | n in b.overflowed || n in b.skipped :: b.joined < n)
            && (!s.broken ==> b.skipped == {})
            && (c in s.topic.subscribers && !Waiting(s, c) ==> b.dealt == |s.log|)
            && (Waiting(s, c) ==> b.dealt == |s.log| - 1)
  {
    hide Possible, After, Inv, Served, Selects, Increasing, Numbered;
    StartInv();
    RunKeepsInv(START, steps);
    var s := After(START, steps);
    InboxInv(s, c);
    GivenIs(s.log, s.inboxes[c]);
  }

  lemma InboxInv(s: State, c: ChanId)
    requires Inv(s) && c in s.inboxes
    ensures Numbered(s.log) && Served(s.log, s.inboxes[c]) && InTurn(s, c)
  {
  }

  lemma GivenIs(log: seq<TaskEvent>, b: Inbox)
    requires Numbered(log) && Served(log, b)
    ensures Increasing(Given(b))
    ensures Selects(Given(b), log, if b.joined <= 100 then 0 else b.joined - 100, b.dealt, b.overflowed + b.skipped)
    ensures forall n | n in b.overflowed || n in b.skipped :: b.joined < n
  {
    WindowMeaning(log, ReplayStart(b.joined), b.dealt, Gone(b));
    hide Selects, Increasing, Window;
  }

  /** What is published is what is in the log, but for its number: the next one. */
  lemma PublishedAsGiven(steps: seq<Step>, event: TaskEvent)
    requires Possible(START, steps) && Enabled(After(START, steps), Snapshot(event))
    ensures var s := After(START, steps);
            Apply(s, Snapshot(event)).log == s.log + [event.(sequence := |s.log| + 1)]
  {
    StartInv();
    RunKeepsInv(START, steps);
    hide Possible, After;
  }

  /** An event is lost to a full buffer only by a send that found the buffer full. */
  lemma LossNeedsFullBuffer(s: State, step: Step, c: ChanId)
    requires Enabled(s, step) && c in s.inboxes
    ensures c in Apply(s, step).inboxes
    ensures Apply(s, step).inboxes[c].overflowed != s.inboxes[c].overflowed ==>
              step == Send(c) && |s.inboxes[c].channel.buffer| >= s.inboxes[c].channel.capacity
  {
  }

  /**
    An event is lost to a publication given up only when a send met a closed channel: then by exactly
    those who were still waiting for it, and it is the last event published, which none of them had yet.
   */
  lemma SkippedOnlyByClosedChannel(steps: seq<Step>, step: Step, c: ChanId)
    requires Possible(START, steps) && Enabled(After(START, steps), step) && c in After(START, steps).inboxes
    ensures var s := After(START, steps); var s' := Apply(s, step);
            && c in s'.inboxes
            && var before, after := s.inboxes[c], s'.inboxes[c];
            && (step.SendToClosed? && Waiting(s, c) ==>
                  |s.log| !in before.skipped && after.skipped == before.skipped + {|s.log|})
            && (!(step.SendToClosed? && Waiting(s, c)) ==> after.skipped == before.skipped)
  {
    StartInv();
    RunKeepsInv(START, steps);
    hide Possible, After;
    SkippedBy(After(START, steps), step, c);
  }

  lemma SkippedBy(s: State, step: Step, c: ChanId)
    requires Inv(s) && Enabled(s, step) && c in s.inboxes
    ensures var s' := Apply(s, step);
            && c in s'.inboxes
            && var before, after := s.inboxes[c], s'.inboxes[c];
            && (step.SendToClosed? && Waiting(s, c) ==>
                  |s.log| !in before.skipped && after.skipped == before.skipped + {|s.log|})
            && (!(step.SendToClosed? && Waiting(s, c)) ==> after.skipped == before.skipped)
  {
    hide Served;
    assert InTurn(s, c);
  }

  /** The history is the last hundred events, numbered up to the number of events published. */
  lemma HistoryIsTheRecentPast(steps: seq<Step>)
    requires Possible(START, steps)
    ensures var s := After(START, steps);
            var h := s.topic.history;
            && |h| == (if |s.log| <= 100 then |s.log| else 100)
            && forall i | 0 <= i < |h| :: h[i] == s.log[|s.log| - |h| + i] && h[i].sequence == |s.log| - |h| + i + 1
  {
    StartInv();
    hide Inv, Numbered, LastOf;
    RunKeepsInv(START, steps);
    hide Possible, After;
    HistoryAndLog(After(START, steps));
    RecentPast(After(START, steps).log);
  }

  lemma HistoryAndLog(s: State)
    requires Inv(s)
    ensures Numbered(s.log) && s.topic.history == LastOf(s.log, EVENT_HISTORY_LIMIT)
  {
    hide Numbered, LastOf, Served, InTurn;
  }

  lemma RecentPast(log: seq<TaskEvent>)
    requires Numbered(log)
    ensures var h := LastOf(log, EVENT_HISTORY_LIMIT);
            && |h| == Min(|log|, EVENT_HISTORY_LIMIT)
            && forall i | 0 <= i < |h| :: h[i] == log[|log| - |h| + i] && h[i].sequence == |log| - |h| + i + 1
  {
  }

  /** A send meets a closed channel exactly when its subscriber left after the snapshot was taken. */
  lemma ClosedOnlyByLeavingInBetween(steps: seq<Step>, c: ChanId)
    requires Possible(START, steps) && Waiting(After(START, steps), c)
    ensures var s := After(START, steps);
            && c in s.inboxes
            && (Enabled(s, SendToClosed(c)) <==> c in s.left && c !in s.topic.subscribers)
  {
    StartInv();
    RunKeepsInv(START, steps);
    var s := After(START, steps);
    assert InTurn(s, c);
  }
}
