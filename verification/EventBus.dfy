/**
  internal/travel/event_bus.go: numbered events per task, a bounded history, replay to new
  subscribers and live delivery into buffered channels.
 */
module EventBus {
  type ChanId = nat

  datatype EventType =
    | Progress | Warning | Error | Done | Node | AssistantDelta | AssistantDone
    | BriefDelta | PoiBatch | WeatherDelta | RouteDelta | BudgetDelta | DayDelta | PlanDraft

  datatype TaskEvent = TaskEvent(kind: EventType, taskId: string, message: string, sequence: nat)

  /** The event that ends a stream. */
  predicate IsTerminal(e: TaskEvent) {
    e.kind.Done? || e.kind.Error?
  }

  /** A Go channel: what waits in its buffer, and whether it has been closed. */
  datatype Channel = Channel(buffer: seq<TaskEvent>, capacity: nat, closed: bool)

  /** What the bus keeps for one task. */
  datatype Topic = Topic(count: nat, history: seq<TaskEvent>, subscribers: set<ChanId>)

  const EVENT_HISTORY_LIMIT: nat := 100

  const EMPTY_TOPIC := Topic(0, [], {})

  /** The last n elements. */
  function LastOf<T>(s: seq<T>, n: nat): seq<T> {
    if |s| > n then s[|s| - n..] else s
  }

  function Stamped(t: Topic, e: TaskEvent): TaskEvent {
    e.(sequence := t.count + 1)
  }

  /** Recording an event: it gets the next number and pushes out the oldest one. */
  function Recorded(t: Topic, e: TaskEvent): Topic {
    Topic(t.count + 1, LastOf(t.history + [Stamped(t, e)], EVENT_HISTORY_LIMIT), t.subscribers)
  }

  /** What recording does: the event keeps all but its number, and of the history the last 99 events stay. */
  lemma RecordedIs(t: Topic, e: TaskEvent)
    ensures Recorded(t, e).count == t.count + 1 && Recorded(t, e).subscribers == t.subscribers
    ensures Recorded(t, e).history ==
              (if |t.history| > 99 then t.history[|t.history| - 99..] else t.history) + [e.(sequence := t.count + 1)]
    ensures Stamped(t, e) == e.(sequence := t.count + 1)
  {
  }

  /** A send that does not block: a full buffer drops the event. */
  function Offered(c: Channel, e: TaskEvent): Channel {
    if |c.buffer| < c.capacity then c.(buffer := c.buffer + [e]) else c
  }

  /** The channel a new subscriber gets: the history, and room for 16 more. */
  function Opened(t: Topic): Channel {
    Channel(t.history, |t.history| + 16, false)
  }

  class EventBus {
    var subscribers: map<string, set<ChanId>>
    var history: map<string, seq<TaskEvent>>
    var sequences: map<string, nat>
    /** The channels handed out so far, by identity. */
    var channels: map<ChanId, Channel>

    /** Subscribers hold open channels of this bus, and no two tasks share one. */
    ghost predicate Valid()
      reads this
    {
      && (forall task, c :: task in subscribers && c in subscribers[task] ==>
            c in channels && !channels[c].closed)
      && (forall task1, task2 | task1 in subscribers && task2 in subscribers && task1 != task2 ::
            subscribers[task1] !! subscribers[task2])
    }

    function TopicOf(task: string): Topic
      reads this
    {
      Topic(
        if task in sequences then sequences[task] else 0,
        if task in history then history[task] else [],
        if task in subscribers then subscribers[task] else {})
    }

    constructor ()
      ensures Valid() && channels == map[]
      ensures forall task :: TopicOf(task) == EMPTY_TOPIC
    {
      subscribers, history, sequences, channels := map[], map[], map[], map[];
    }

    /** The part of Publish under the lock: number and record the event, and note who is listening. */
    method Snapshot(event: TaskEvent) returns (stamped: TaskEvent, targets: set<ChanId>)
      requires Valid()
      modifies this
      ensures Valid()
      ensures targets == old(TopicOf(event.taskId)).subscribers
      ensures event.taskId == "" ==> stamped == event
      ensures event.taskId != "" ==> stamped == Stamped(old(TopicOf(event.taskId)), event)
      ensures forall task :: TopicOf(task) ==
                if task == event.taskId != "" then Recorded(old(TopicOf(task)), event) else old(TopicOf(task))
      ensures channels == old(channels)
    {
      stamped := event;
      if event.taskId != "" {
        var count := if event.taskId in sequences then sequences[event.taskId] else 0;
        sequences := sequences[event.taskId := count + 1];
        stamped := event.(sequence := sequences[event.taskId]);
        var events := (if event.taskId in history then history[event.taskId] else []) + [stamped];
        if |events| > EVENT_HISTORY_LIMIT {
          events := events[|events| - EVENT_HISTORY_LIMIT..];
        }
        history := history[event.taskId := events];
      }
      targets := if event.taskId in subscribers then subscribers[event.taskId] else {};
    }

    /** One send outside the lock; sending on a closed channel panics. */
    method Send(c: ChanId, event: TaskEvent) returns (panicked: bool)
      requires c in channels
      modifies this`channels
      ensures panicked == old(channels[c]).closed
      ensures channels == if panicked then old(channels) else old(channels)[c := Offered(old(channels[c]), event)]
    {
      var ch := channels[c];
      if ch.closed {
        return true;
      }
      if |ch.buffer| < ch.capacity {
        channels := channels[c := ch.(buffer := ch.buffer + [event])];
      }
      return false;
    }

    /** The sends of one Publish, in the order Go visits the subscribers. */
    method SendAll(order: seq<ChanId>, event: TaskEvent)
      requires forall i | 0 <= i < |order| :: order[i] in channels && !channels[order[i]].closed
      requires forall i, j | 0 <= i < j < |order| :: order[i] != order[j]
      modifies this`channels
      ensures channels.Keys == old(channels).Keys
      ensures forall c | c in channels ::
                channels[c] == if c in order then Offered(old(channels)[c], event) else old(channels)[c]
    {
      var k := 0;
      while k < |order|
        invariant 0 <= k <= |order|
        invariant channels.Keys == old(channels).Keys
        invariant forall i | 0 <= i < |order| ::
                    var before := old(channels)[order[i]];
                    channels[order[i]] == if i < k then Offered(before, event) else before
        invariant forall c | c in channels && c !in order :: channels[c] == old(channels)[c]
      {
        var panicked := Send(order[k], event);
        k := k + 1;
      }
    }

    /** Publish with nothing happening in between; `order` lists the subscribers in any order. */
    method Publish(event: TaskEvent, order: seq<ChanId>)
      requires Valid()
      requires forall c :: c in order <==> c in TopicOf(event.taskId).subscribers
      requires forall i, j | 0 <= i < j < |order| :: order[i] != order[j]
      modifies this
      ensures Valid()
      ensures forall task :: TopicOf(task) ==
                if task == event.taskId != "" then Recorded(old(TopicOf(task)), event) else old(TopicOf(task))
      ensures channels.Keys == old(channels).Keys
      ensures forall c | c in channels :: channels[c] ==
                if c !in order then old(channels)[c]
                else Offered(old(channels)[c],
                             if event.taskId == "" then event else Stamped(old(TopicOf(event.taskId)), event))
    {
      var stamped, targets := Snapshot(event);
      assert forall c | c in order :: c in channels && !channels[c].closed;
      label Sending:
      SendAll(order, stamped);
      assert forall task :: TopicOf(task) == old@Sending(TopicOf(task));
    }

    /** `c` is the identity of the channel Go allocates. */
    method Subscribe(task: string, c: ChanId)
      requires Valid() && c !in channels
      modifies this
      ensures Valid()
      ensures channels == old(channels)[c := Opened(old(TopicOf(task)))]
      ensures channels[c].buffer == old(TopicOf(task)).history
              && channels[c].capacity == |channels[c].buffer| + 16 && !channels[c].closed
      ensures forall t ::
                var before := old(TopicOf(t));
                TopicOf(t) == if t == task then before.(subscribers := before.subscribers + {c}) else before
    {
      var events := if task in history then history[task] else [];
      var ch := Filled(events);
      assert ch == Opened(TopicOf(task));
      channels := channels[c := ch];
      Register(task, c);
    }

    /** The subscription itself, of a channel that is open and not yet used. */
    method Register(task: string, c: ChanId)
      requires Valid()
      requires c in channels && !channels[c].closed && forall t :: c !in TopicOf(t).subscribers
      modifies this`subscribers
      ensures Valid()
      ensures forall t ::
                var before := old(TopicOf(t));
                TopicOf(t) == if t == task then before.(subscribers := before.subscribers + {c}) else before
    {
      assert forall t | t in subscribers :: c !in subscribers[t] by {
        assert forall t | t in subscribers :: TopicOf(t).subscribers == subscribers[t];
      }
      if task !in subscribers {
        subscribers := subscribers[task := {}];
      }
      subscribers := subscribers[task := subscribers[task] + {c}];
    }

    /** A fresh channel with room for the history and 16 more, the history already sent into it. */
    static method Filled(events: seq<TaskEvent>) returns (ch: Channel)
      ensures ch == Channel(events, |events| + 16, false)
    {
      ch := Channel([], |events| + 16, false);
      var k := 0;
      while k < |events|
        invariant 0 <= k <= |events|
        invariant ch == Channel(events[..k], |events| + 16, false)
      {
        ch := ch.(buffer := ch.buffer + [events[k]]);
        k := k + 1;
      }
      assert events[..k] == events;
    }

    /** The closure Subscribe returns, for a channel it has not been called on yet. */
    method Unsubscribe(task: string, c: ChanId)
      requires Valid()
      requires c in TopicOf(task).subscribers
      modifies this
      ensures Valid()
      ensures channels == old(channels)[c := old(channels[c]).(closed := true)]
      ensures forall t ::
                var before := old(TopicOf(t));
                TopicOf(t) == if t == task then before.(subscribers := before.subscribers - {c}) else before
    {
      if task in subscribers {
        subscribers := subscribers[task := subscribers[task] - {c}];
        if |subscribers[task]| == 0 {
          subscribers := subscribers - {task};
        }
      }
      channels := channels[c := channels[c].(closed := true)];
    }

    method History(task: string) returns (events: seq<TaskEvent>)
      ensures events == TopicOf(task).history
    {
      events := if task in history then history[task] else [];
    }
  }
}
