/**
  internal/agent/eino/api_client.go, externalAPILimiter: send times are reserved under a lock, each one
  interval after the one before; a semaphore bounds the calls in flight. Times are nanoseconds.
 */
module ApiLimiter {
  const SECOND: int := 1_000_000_000
  const DEFAULT_CONCURRENCY: int := 2
  const DEFAULT_QPS: int := 2

  function Max(a: int, b: int): int { if a >= b then a else b }

  /** The time reserved last, when the clock readings of the callers, in the order they got the lock, are these. */
  function SendAt(interval: nat, readings: seq<int>): int
    requires readings != []
  {
    var n := |readings| - 1;
    if n == 0 then readings[0] else Max(readings[n], SendAt(interval, readings[..n]) + interval)
  }

  /** The time reserved by caller number i. */
  function Slot(interval: nat, readings: seq<int>, i: nat): int
    requires i < |readings|
  {
    SendAt(interval, readings[..i + 1])
  }

  class ExternalApiLimiter {
    const concurrency: nat
    const interval: nat
    var sem: nat                // the calls in flight
    var started: bool           // a call has been made: `next` is no longer the zero time
    var next: int
    ghost var readings: seq<int>

    ghost predicate Valid()
      reads this
    {
      && concurrency > 0 && sem <= concurrency
      && started == (readings != [])
      && (started ==> next == SendAt(interval, readings) + interval)
    }

    constructor (concurrency: int, qps: int)
      ensures Valid() && readings == [] && sem == 0
      ensures this.concurrency == if concurrency <= 0 then 2 else concurrency
      ensures interval == 1_000_000_000 / if qps <= 0 then 2 else qps
    {
      this.concurrency := if concurrency <= 0 then DEFAULT_CONCURRENCY else concurrency;
      interval := SECOND / if qps <= 0 then DEFAULT_QPS else qps;
      sem, started, next := 0, false, 0;
      readings := [];
    }

    /** The locked part of wait; with no interval the caller goes straight to the semaphore. */
    method Reserve(now: int) returns (sendAt: int)
      requires Valid() && interval > 0
      modifies this`started, this`next, this`readings
      ensures Valid()
      ensures readings == old(readings) + [now]
      ensures sendAt == Slot(interval, readings, |readings| - 1)
    {
      sendAt := now;
      if started && next > now {
        sendAt := next;
      }
      next := sendAt + interval;
      readings := readings + [now];
      started := true;
      assert readings[..|readings| - 1] == old(readings) && readings[..|readings|] == readings;
    }

    /** A send on the semaphore channel: it blocks when the channel is full. */
    method TryEnter() returns (entered: bool)
      requires Valid()
      modifies this`sem
      ensures Valid()
      ensures entered <==> old(sem) < concurrency
      ensures sem == old(sem) + if entered then 1 else 0
    {
      entered := sem < concurrency;
      if entered {
        sem := sem + 1;
      }
    }

    method Leave()
      requires Valid() && sem > 0
      modifies this`sem
      ensures Valid()
      ensures sem == old(sem) - 1
    {
      sem := sem - 1;
    }
  }

  // ---------------------------------------------------------------- spacing

  /**
    Reserved times are at least one interval apart in lock order, and no call is reserved a time before
    its own clock reading, whatever the readings are.
   */
  lemma {:induction false} SlotsAreSpaced(interval: nat, readings: seq<int>, i: nat, j: nat)
    requires i <= j < |readings|
    ensures Slot(interval, readings, j) >= Slot(interval, readings, i) + (j - i) * interval
    ensures Slot(interval, readings, j) >= readings[j]
    decreases j
  {
    if i < j {
      SlotsAreSpaced(interval, readings, i, j - 1);
      assert readings[..j + 1][..j] == readings[..j];
      assert (j - i) * interval == (j - 1 - i) * interval + interval;
    }
  }

  /** A schedule that waits for the clock readings and keeps the intervals. */
  ghost predicate Schedule(interval: nat, readings: seq<int>, times: seq<int>) {
    && |times| == |readings|
    && (forall i | 0 <= i < |times| :: times[i] >= readings[i])
    && (forall i | 0 < i < |times| :: times[i] >= times[i - 1] + interval)
  }

  /** No schedule is earlier anywhere than the reserved times. */
  lemma {:induction false} NoScheduleIsEarlier(interval: nat, readings: seq<int>, times: seq<int>, i: nat)
    requires Schedule(interval, readings, times) && i < |times|
    ensures Slot(interval, readings, i) <= times[i]
    decreases i
  {
    if i > 0 {
      NoScheduleIsEarlier(interval, readings, times, i - 1);
      assert readings[..i + 1][..i] == readings[..i];
    }
  }

  // ---------------------------------------------------------------- the rate

  /** How many of the reserved times lie in [a, a + SECOND). */
  function InSecond(interval: nat, readings: seq<int>, a: int): nat {
    if readings == [] then 0
    else
      InSecond(interval, readings[..|readings| - 1], a)
      + if a <= SendAt(interval, readings) < a + SECOND then 1 else 0
  }

  function Ceil(a: nat, b: nat): nat
    requires b > 0
  {
    (a + b - 1) / b
  }

  /** With k times in the second, the last of them comes k - 1 intervals after its beginning. */
  lemma {:induction false} CountPushesOut(interval: nat, readings: seq<int>, a: int)
    requires interval > 0
    ensures var k := InSecond(interval, readings, a);
            k > 0 ==> SendAt(interval, readings) >= a + (k - 1) * interval && (k - 1) * interval < SECOND
  {
    if readings != [] {
      var n := |readings| - 1;
      CountPushesOut(interval, readings[..n], a);
      var k := InSecond(interval, readings, a);
      if n > 0 {
        var before := SendAt(interval, readings[..n]);
        assert SendAt(interval, readings) >= before + interval;
        if k > 1 {
          assert (k - 1) * interval == (k - 2) * interval + interval;
        }
      }
    }
  }

  /** For all clock readings: no second, beginning included and end not, holds more reserved times than this. */
  lemma RateBound(interval: nat, readings: seq<int>, a: int)
    requires interval > 0
    ensures InSecond(interval, readings, a) <= Ceil(SECOND, interval)
  {
    CountPushesOut(interval, readings, a);
    CeilIsLeast(SECOND, interval, InSecond(interval, readings, a));
  }

  /** Ceil(a, b) is the number of multiples of b, from 0, that are less than a. */
  lemma {:induction false} CeilIsLeast(a: nat, b: nat, k: nat)
    requires b > 0
    ensures k <= Ceil(a, b) <==> (k == 0 || (k - 1) * b < a)
  {
    var q := Ceil(a, b);
    Quotient(a + b - 1, b);
    if k <= q && k > 0 {
      Times(k - 1, q - 1, b);
    } else if k > q {
      Times(q, k - 1, b);
    }
  }

  lemma Quotient(x: nat, b: nat)
    requires b > 0
    ensures (x / b) * b <= x < (x / b) * b + b
    ensures (x / b - 1) * b == (x / b) * b - b
  {
  }

  lemma Times(x: int, y: int, b: nat)
    requires x <= y
    ensures x * b <= y * b
  {
  }

  /** All callers at once: caller i is sent at i * interval. */
  function Crowd(n: nat): seq<int> { seq(n, _ => 0) }

  lemma {:induction false} CrowdSlots(interval: nat, n: nat)
    requires interval > 0
    ensures n > 0 ==> SendAt(interval, Crowd(n)) == (n - 1) * interval
    ensures n <= Ceil(SECOND, interval) ==> InSecond(interval, Crowd(n), 0) == n
  {
    if n > 0 {
      CrowdSlots(interval, n - 1);
      assert Crowd(n)[..n - 1] == Crowd(n - 1);
      if n > 1 {
        assert (n - 1) * interval == (n - 2) * interval + interval;
      }
      CeilIsLeast(SECOND, interval, n);
    }
  }

  lemma QpsInterval(qps: nat)
    requires 0 < qps <= SECOND
    ensures SECOND / qps > 0
    ensures Ceil(SECOND, SECOND / qps) >= qps
    ensures Ceil(SECOND, SECOND / qps) == qps <==> SECOND % qps == 0
  {
    var d := SECOND / qps;
    assert SECOND == qps * d + SECOND % qps;
    assert d >= 1;
    CeilIsLeast(SECOND, d, qps);
    CeilIsLeast(SECOND, d, qps + 1);
    assert (qps - 1) * d == qps * d - d;
  }

  /**
    A limiter for qps calls a second reserves at most qps times in every second, for all clock readings,
    exactly when qps divides the nanoseconds of a second; otherwise a crowd of callers is given more.
   */
  lemma KeepsRateIffDivides(qps: nat)
    requires 0 < qps <= SECOND
    ensures (forall readings, a :: InSecond(SECOND / qps, readings, a) <= qps) <==> 1_000_000_000 % qps == 0
  {
    QpsInterval(qps);
    var interval := SECOND / qps;
    forall readings, a
      ensures InSecond(interval, readings, a) <= Ceil(SECOND, interval)
    {
      RateBound(interval, readings, a);
    }
    CrowdSlots(interval, Ceil(SECOND, interval));
  }

  // ---------------------------------------------------------------- whole runs

  type CallId = nat

  datatype Pc = Waiting(slot: nat) | InFlight | Over

  datatype State = State(readings: seq<int>, calls: map<CallId, Pc>, inFlight: nat, entered: seq<(nat, int)>)

  const START := State([], map[], 0, [])

  /** `entered` records, for each call that got into the semaphore, its slot and the time it did. */
  datatype Step =
    | Reserve(call: CallId, now: int)
    | Cancel(call: CallId)
    | Enter(call: CallId, now: int)
    | Leave(call: CallId)

  predicate Enabled(concurrency: nat, interval: nat, s: State, step: Step) {
    match step
    case Reserve(c, _) => c !in s.calls
    case Cancel(c) => c in s.calls && s.calls[c].Waiting?
    case Enter(c, now) =>
      && c in s.calls && s.calls[c].Waiting? && s.calls[c].slot < |s.readings|
      && (interval > 0 ==> now >= Slot(interval, s.readings, s.calls[c].slot)) && s.inFlight < concurrency
    case Leave(c) => c in s.calls && s.calls[c].InFlight? && s.inFlight > 0
  }

  function Apply(concurrency: nat, interval: nat, s: State, step: Step): State
    requires Enabled(concurrency, interval, s, step)
  {
    match step
    case Reserve(c, now) => s.(readings := s.readings + [now], calls := s.calls[c := Waiting(|s.readings|)])
    case Cancel(c) => s.(calls := s.calls[c := Over])
    case Enter(c, now) =>
      s.(calls := s.calls[c := InFlight], inFlight := s.inFlight + 1, entered := s.entered + [(s.calls[c].slot, now)])
    case Leave(c) => s.(calls := s.calls[c := Over], inFlight := s.inFlight - 1)
  }

  ghost predicate Possible(concurrency: nat, interval: nat, s: State, steps: seq<Step>)
    decreases |steps|
  {
    steps == []
    || (Enabled(concurrency, interval, s, steps[0])
        && Possible(concurrency, interval, Apply(concurrency, interval, s, steps[0]), steps[1..]))
  }

  ghost function After(concurrency: nat, interval: nat, s: State, steps: seq<Step>): State
    requires Possible(concurrency, interval, s, steps)
    decreases |steps|
  {
    if steps == [] then s
    else After(concurrency, interval, Apply(concurrency, interval, s, steps[0]), steps[1..])
  }

  ghost function Flying(s: State): set<CallId> {
    set c | c in s.calls && s.calls[c].InFlight?
  }

  ghost predicate Inv(concurrency: nat, interval: nat, s: State) {
    && |Flying(s)| == s.inFlight <= concurrency
    && (forall c | c in s.calls && s.calls[c].Waiting? :: s.calls[c].slot < |s.readings|)
    && (forall k | 0 <= k < |s.entered| ::
          s.entered[k].0 < |s.readings|
          && (interval > 0 ==> s.entered[k].1 >= Slot(interval, s.readings, s.entered[k].0)))
  }

  lemma SlotsStay(interval: nat, readings: seq<int>, now: int, i: nat)
    requires i < |readings|
    ensures Slot(interval, readings + [now], i) == Slot(interval, readings, i)
  {
    assert (readings + [now])[..i + 1] == readings[..i + 1];
  }

  lemma ReserveKeepsInv(concurrency: nat, interval: nat, s: State, c: CallId, now: int)
    requires Inv(concurrency, interval, s) && Enabled(concurrency, interval, s, Reserve(c, now))
    ensures Inv(concurrency, interval, Apply(concurrency, interval, s, Reserve(c, now)))
  {
    hide Slot;
    var s' := Apply(concurrency, interval, s, Reserve(c, now));
    assert Flying(s') == Flying(s);
    forall i: nat | i < |s.readings|
      ensures Slot(interval, s'.readings, i) == Slot(interval, s.readings, i)
    {
      SlotsStay(interval, s.readings, now, i);
    }
  }

  lemma StepKeepsInv(concurrency: nat, interval: nat, s: State, step: Step)
    requires Inv(concurrency, interval, s) && Enabled(concurrency, interval, s, step)
    ensures Inv(concurrency, interval, Apply(concurrency, interval, s, step))
  {
    hide Slot;
    match step {
      case Reserve(c, now) => ReserveKeepsInv(concurrency, interval, s, c, now);
      case Cancel(c) => assert Flying(Apply(concurrency, interval, s, step)) == Flying(s);
      case Enter(c, _) => assert Flying(Apply(concurrency, interval, s, step)) == Flying(s) + {c};
      case Leave(c) => assert Flying(Apply(concurrency, interval, s, step)) == Flying(s) - {c};
    }
  }

  lemma {:induction false} RunKeepsInv(concurrency: nat, interval: nat, s: State, steps: seq<Step>)
    requires Inv(concurrency, interval, s) && Possible(concurrency, interval, s, steps)
    ensures Inv(concurrency, interval, After(concurrency, interval, s, steps))
    decreases |steps|
  {
    hide Inv, Enabled, Apply;
    if steps != [] {
      StepKeepsInv(concurrency, interval, s, steps[0]);
      RunKeepsInv(concurrency, interval, Apply(concurrency, interval, s, steps[0]), steps[1..]);
    }
  }

  /**
    On every run, with callers cancelled while they wait or not: no more calls are in flight than the
    semaphore holds, and every call that has entered did so at or after the time reserved for it.
   */
  lemma RunsAreLimited(concurrency: nat, interval: nat, steps: seq<Step>)
    requires Possible(concurrency, interval, START, steps)
    ensures var s := After(concurrency, interval, START, steps);
            && |Flying(s)| <= concurrency
            && (forall k | 0 <= k < |s.entered| ::
                  s.entered[k].0 < |s.readings|
                  && (interval > 0 ==> s.entered[k].1 >= Slot(interval, s.readings, s.entered[k].0)))
  {
    assert Flying(START) == {};
    RunKeepsInv(concurrency, interval, START, steps);
  }

  // ---------------------------------------------------------------- the rate of the calls that get through

  /** How many calls got through in [a, a + SECOND). */
  function EnteredIn(entered: seq<(nat, int)>, a: int): nat {
    if entered == [] then 0
    else
      EnteredIn(entered[..|entered| - 1], a) + if a <= entered[|entered| - 1].1 < a + SECOND then 1 else 0
  }

  /** Every call got through at the very time reserved for it. */
  ghost predicate Prompt(interval: nat, s: State) {
    forall k | 0 <= k < |s.entered| ::
      s.entered[k].0 < |s.readings| && s.entered[k].1 == Slot(interval, s.readings, s.entered[k].0)
  }

  /** A slot is used once. */
  ghost predicate SlotsOnce(s: State) {
    && (forall i, j | 0 <= i < j < |s.entered| :: s.entered[i].0 != s.entered[j].0)
    && (forall i | 0 <= i < |s.entered| :: s.entered[i].0 < |s.readings|)
    && (forall c | c in s.calls && s.calls[c].Waiting? :: s.calls[c].slot < |s.readings|)
    && (forall c, i | c in s.calls && s.calls[c].Waiting? && 0 <= i < |s.entered| :: s.entered[i].0 != s.calls[c].slot)
    && (forall c, d | c in s.calls && d in s.calls && s.calls[c].Waiting? && s.calls[d].Waiting? && c != d ::
          s.calls[c].slot != s.calls[d].slot)
  }

  lemma StepKeepsSlotsOnce(concurrency: nat, interval: nat, s: State, step: Step)
    requires SlotsOnce(s) && Enabled(concurrency, interval, s, step)
    ensures SlotsOnce(Apply(concurrency, interval, s, step))
  {
    hide Slot;
  }

  lemma {:induction false} RunKeepsSlotsOnce(concurrency: nat, interval: nat, s: State, steps: seq<Step>)
    requires SlotsOnce(s) && Possible(concurrency, interval, s, steps)
    ensures SlotsOnce(After(concurrency, interval, s, steps))
    decreases |steps|
  {
    hide SlotsOnce, Enabled, Apply;
    if steps != [] {
      StepKeepsSlotsOnce(concurrency, interval, s, steps[0]);
      RunKeepsSlotsOnce(concurrency, interval, Apply(concurrency, interval, s, steps[0]), steps[1..]);
    }
  }

  /** The callers whose reserved times lie in [a, a + SECOND). */
  function SlotsIn(interval: nat, readings: seq<int>, a: int): set<nat> {
    set i: nat | i < |readings| && a <= Slot(interval, readings, i) < a + SECOND
  }

  /** One reading more adds its own slot at most. */
  lemma OneSlotMore(interval: nat, before: seq<int>, now: int, a: int)
    ensures var own := Slot(interval, before + [now], |before|);
            SlotsIn(interval, before + [now], a) ==
            SlotsIn(interval, before, a) + if a <= own < a + SECOND then {|before|} else {}
  {
    hide Slot;
    forall i: nat | i < |before|
      ensures Slot(interval, before + [now], i) == Slot(interval, before, i)
    {
      SlotsStay(interval, before, now, i);
    }
  }

  lemma {:induction false} SlotsAreCounted(interval: nat, readings: seq<int>, a: int)
    ensures |SlotsIn(interval, readings, a)| == InSecond(interval, readings, a)
  {
    hide SendAt;
    if readings == [] {
      assert SlotsIn(interval, readings, a) == {};
    } else {
      var n := |readings| - 1;
      SlotsAreCounted(interval, readings[..n], a);
      OneSlotMore(interval, readings[..n], readings[n], a);
      assert readings == readings[..n] + [readings[n]] && readings[..n + 1] == readings;
      assert n !in SlotsIn(interval, readings[..n], a);
      hide SlotsIn;
    }
  }

  /** The slots of the calls that got through in that second. */
  function UsedIn(entered: seq<(nat, int)>, a: int): set<nat> {
    if entered == [] then {}
    else
      UsedIn(entered[..|entered| - 1], a)
      + if a <= entered[|entered| - 1].1 < a + SECOND then {entered[|entered| - 1].0} else {}
  }

  lemma {:induction false} UsedAre(entered: seq<(nat, int)>, a: int)
    ensures forall x | x in UsedIn(entered, a) ::
              exists i | 0 <= i < |entered| :: entered[i].0 == x && a <= entered[i].1 < a + SECOND
  {
    if entered != [] {
      UsedAre(entered[..|entered| - 1], a);
    }
  }

  lemma {:induction false} UsedAreCounted(entered: seq<(nat, int)>, a: int)
    requires forall i, j | 0 <= i < j < |entered| :: entered[i].0 != entered[j].0
    ensures |UsedIn(entered, a)| == EnteredIn(entered, a)
  {
    if entered != [] {
      var n := |entered| - 1;
      UsedAreCounted(entered[..n], a);
      UsedAre(entered[..n], a);
      assert entered[n].0 !in UsedIn(entered[..n], a);
    }
  }

  lemma SmallerSet(a: set<nat>, b: set<nat>)
    requires a <= b
    ensures |a| <= |b|
  {
    assert b == a + (b - a);
  }

  /**
    On every run in which each call gets through the semaphore at its reserved time, no second sees more
    calls than times can be reserved in it.
   */
  lemma PromptRunsKeepRate(concurrency: nat, interval: nat, steps: seq<Step>, a: int)
    requires interval > 0 && Possible(concurrency, interval, START, steps)
    requires Prompt(interval, After(concurrency, interval, START, steps))
    ensures EnteredIn(After(concurrency, interval, START, steps).entered, a) <= Ceil(SECOND, interval)
  {
    RunKeepsSlotsOnce(concurrency, interval, START, steps);
    hide Possible, After, Slot;
    var s := After(concurrency, interval, START, steps);
    UsedAreCounted(s.entered, a);
    UsedAre(s.entered, a);
    assert UsedIn(s.entered, a) <= SlotsIn(interval, s.readings, a);
    SmallerSet(UsedIn(s.entered, a), SlotsIn(interval, s.readings, a));
    SlotsAreCounted(interval, s.readings, a);
    RateBound(interval, s.readings, a);
  }

  // ---------------------------------------------------------------- a crowd gets through

  lemma {:induction false} OneMoreStep(concurrency: nat, interval: nat, s: State, steps: seq<Step>, step: Step)
    requires Possible(concurrency, interval, s, steps)
    requires Enabled(concurrency, interval, After(concurrency, interval, s, steps), step)
    ensures Possible(concurrency, interval, s, steps + [step])
    ensures After(concurrency, interval, s, steps + [step]) ==
            Apply(concurrency, interval, After(concurrency, interval, s, steps), step)
    decreases |steps|
  {
    hide Enabled, Apply;
    if steps == [] {
      assert steps + [step] == [step] && [step][1..] == [];
    } else {
      OneMoreStep(concurrency, interval, Apply(concurrency, interval, s, steps[0]), steps[1..], step);
      assert (steps + [step])[1..] == steps[1..] + [step] && (steps + [step])[0] == steps[0];
    }
  }

  /** n callers who came at time 0; the first m of them have got through, caller i at times[i], and left. */
  function Queue(n: nat, m: nat, times: seq<int>): State
    requires m <= n && m <= |times|
  {
    State(Crowd(n), map c: CallId | c < n :: if c < m then Over else Waiting(c), 0,
        seq(m, i requires 0 <= i < m => (i, times[i])))
  }

  lemma {:induction false} QueueForms(concurrency: nat, interval: nat, n: nat) returns (steps: seq<Step>)
    ensures Possible(concurrency, interval, START, steps)
    ensures After(concurrency, interval, START, steps) == Queue(n, 0, [])
    decreases n
  {
    if n == 0 {
      steps := [];
      assert Queue(0, 0, []) == START;
    } else {
      steps := QueueForms(concurrency, interval, n - 1);
      hide Possible, After;
      OneMoreStep(concurrency, interval, START, steps, Reserve(n - 1, 0));
      steps := steps + [Reserve(n - 1, 0)];
      assert Crowd(n - 1) + [0] == Crowd(n);
    }
  }

  lemma {:induction false} QueuePasses(concurrency: nat, interval: nat, n: nat, m: nat, times: seq<int>)
      returns (steps: seq<Step>)
    requires concurrency > 0 && interval > 0 && m <= n == |times|
    requires forall i | 0 <= i < n :: times[i] >= i * interval
    ensures Possible(concurrency, interval, START, steps)
    ensures After(concurrency, interval, START, steps) == Queue(n, m, times)
    decreases m
  {
    if m == 0 {
      steps := QueueForms(concurrency, interval, n);
    } else {
      steps := QueuePasses(concurrency, interval, n, m - 1, times);
      hide Possible, After;
      var c := m - 1;
      CrowdSlot(interval, n, c);
      OneMoreStep(concurrency, interval, START, steps, Enter(c, times[c]));
      OneMoreStep(concurrency, interval, START, steps + [Enter(c, times[c])], Leave(c));
      steps := steps + [Enter(c, times[c])] + [Leave(c)];
      assert After(concurrency, interval, START, steps) == Queue(n, m, times);
    }
  }

  lemma CrowdSlot(interval: nat, n: nat, c: nat)
    requires interval > 0 && c < n
    ensures Slot(interval, Crowd(n), c) == c * interval
  {
    assert Crowd(n)[..c + 1] == Crowd(c + 1);
    CrowdSlots(interval, c + 1);
  }

  lemma {:induction false} AllInSecond(entered: seq<(nat, int)>, a: int)
    requires forall i | 0 <= i < |entered| :: a <= entered[i].1 < a + SECOND
    ensures EnteredIn(entered, a) == |entered|
  {
    if entered != [] {
      AllInSecond(entered[..|entered| - 1], a);
    }
  }

  /**
    When calls get through later than their reserved times there is no bound: whatever the interval and the
    concurrency, and for every n, some run lets n calls through in one instant.
   */
  lemma LateCallsBunch(concurrency: nat, interval: nat, n: nat) returns (steps: seq<Step>)
    requires concurrency > 0 && interval > 0
    ensures Possible(concurrency, interval, START, steps)
    ensures var entered := After(concurrency, interval, START, steps).entered;
            && |entered| == n && (forall i | 0 <= i < n :: entered[i].1 == n * interval)
            && EnteredIn(entered, n * interval) == n
  {
    var times := seq(n, _ => n * interval);
    steps := QueuePasses(concurrency, interval, n, n, times);
    AllInSecond(Queue(n, n, times).entered, n * interval);
  }

  /**
    A limiter for qps calls a second lets at most qps calls through in every second, on all runs in which
    calls get through at their reserved times, if and only if qps divides the nanoseconds of a second.
   */
  lemma PromptRateIffDivides(concurrency: nat, qps: nat)
    requires concurrency > 0 && 0 < qps <= SECOND
    ensures (forall steps, a | Possible(concurrency, SECOND / qps, START, steps)
                               && Prompt(SECOND / qps, After(concurrency, SECOND / qps, START, steps)) ::
               EnteredIn(After(concurrency, SECOND / qps, START, steps).entered, a) <= qps)
            <==> 1_000_000_000 % qps == 0
  {
    QpsInterval(qps);
    var interval := SECOND / qps;
    forall steps, a | Possible(concurrency, interval, START, steps)
        && Prompt(interval, After(concurrency, interval, START, steps))
      ensures EnteredIn(After(concurrency, interval, START, steps).entered, a) <= Ceil(SECOND, interval)
    {
      PromptRunsKeepRate(concurrency, interval, steps, a);
    }
    var steps := PromptCrowd(concurrency, interval, Ceil(SECOND, interval));
  }

  lemma PromptCrowd(concurrency: nat, interval: nat, n: nat) returns (steps: seq<Step>)
    requires concurrency > 0 && interval > 0 && n <= Ceil(SECOND, interval)
    ensures Possible(concurrency, interval, START, steps)
    ensures Prompt(interval, After(concurrency, interval, START, steps))
    ensures EnteredIn(After(concurrency, interval, START, steps).entered, 0) == n
  {
    var times := seq(n, i requires 0 <= i < n => i * interval);
    steps := QueuePasses(concurrency, interval, n, n, times);
    hide Possible, After;
    var s := Queue(n, n, times);
    forall i | 0 <= i < n
      ensures s.entered[i].1 == Slot(interval, s.readings, i) && 0 <= s.entered[i].1 < SECOND
    {
      CrowdSlot(interval, n, i);
      CeilIsLeast(SECOND, interval, i + 1);
    }
    AllInSecond(s.entered, 0);
  }
}
