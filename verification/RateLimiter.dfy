/**
  internal/travel/rate_limiter.go, MemoryRateLimiter: a fixed window per key that opens with the first
  call after the previous one has closed. Times are nanoseconds.
 */
module RateLimiter {
  const WINDOW: int := 60_000_000_000

  datatype Bucket = Bucket(count: nat, expiresAt: int)

  datatype Call = Call(key: string, at: int)

  /** The call that opens a bucket is the first one that finds none or finds it closed. */
  predicate Opens(open: map<string, Bucket>, call: Call) {
    call.key !in open || open[call.key].expiresAt < call.at
  }

  function Taken(open: map<string, Bucket>, call: Call): Bucket {
    if Opens(open, call) then Bucket(1, call.at + WINDOW)
    else Bucket(open[call.key].count + 1, open[call.key].expiresAt)
  }

  /** The buckets after a series of calls. */
  function Counters(calls: seq<Call>): map<string, Bucket> {
    if calls == [] then map[]
    else
      var before := Counters(calls[..|calls| - 1]);
      var call := calls[|calls| - 1];
      before[call.key := Taken(before, call)]
  }

  class MemoryRateLimiter {
    const limit: nat
    var counters: map<string, Bucket>
    ghost var calls: seq<Call>

    ghost predicate Valid()
      reads this
    {
      limit > 0 && counters == Counters(calls)
    }

    constructor (limit: int)
      ensures Valid() && calls == []
      ensures this.limit == if limit <= 0 then 60 else limit
    {
      this.limit := if limit <= 0 then 60 else limit;
      counters := map[];
      calls := [];
    }

    /** An error, and no other effect, when the caller's context has ended. */
    method Allow(alive: bool, key: string, now: int) returns (ok: bool, allowed: bool)
      requires Valid()
      modifies this
      ensures Valid()
      ensures ok == alive
      ensures !ok ==> !allowed && calls == old(calls) && counters == old(counters)
      ensures ok ==> calls == old(calls) + [Call(key, now)]
      ensures ok ==> allowed == Allowed(limit, calls, |calls| - 1)
    {
      hide Counters;
      if !alive {
        return false, false;
      }
      AfterCall(limit, calls, Call(key, now));
      var bucket := if key in counters then counters[key] else Bucket(0, now - 1);
      if bucket.expiresAt < now {
        bucket := Bucket(0, now + WINDOW);
      }
      bucket := bucket.(count := bucket.count + 1);
      counters := counters[key := bucket];
      calls := calls + [Call(key, now)];
      return true, bucket.count <= limit;
    }
  }

  /** Call number i is let through. */
  predicate Allowed(limit: nat, calls: seq<Call>, i: nat)
    requires i < |calls|
  {
    Taken(Counters(calls[..i]), calls[i]).count <= limit
  }

  lemma AfterCall(limit: nat, calls: seq<Call>, call: Call)
    ensures Counters(calls + [call]) == Counters(calls)[call.key := Taken(Counters(calls), call)]
    ensures Allowed(limit, calls + [call], |calls|) <==> Taken(Counters(calls), call).count <= limit
  {
  }

  /** How many calls for the key are let through at a time between `from` and `to`, both included. */
  function Through(limit: nat, calls: seq<Call>, key: string, from: int, to: int): nat {
    if calls == [] then 0
    else
      var n := |calls| - 1;
      Through(limit, calls[..n], key, from, to)
      + if calls[n].key == key && from <= calls[n].at <= to && Allowed(limit, calls, n) then 1 else 0
  }

  predicate InOrder(calls: seq<Call>) {
    forall i, j | 0 <= i < j < |calls| :: calls[i].at <= calls[j].at
  }

  function Min(a: int, b: int): int { if a <= b then a else b }

  // ---------------------------------------------------------------- how many get through

  /** What the bucket of a key tells about the calls let through between a and a + WINDOW. */
  ghost predicate Bounded(limit: nat, through: nat, bucket: Bucket, a: int) {
    var since := bucket.expiresAt - WINDOW;
    && bucket.count >= 1
    && (since < a ==> through <= Min(bucket.count, limit) - 1)
    && (a <= since <= a + WINDOW ==> through <= limit - 1 + Min(bucket.count, limit))
    && (since > a + WINDOW ==> through <= 2 * limit - 1)
  }

  lemma {:induction false} BucketsBound(limit: nat, calls: seq<Call>, key: string, a: int)
    requires limit > 0 && InOrder(calls)
    ensures key !in Counters(calls) ==> Through(limit, calls, key, a, a + WINDOW) == 0
    ensures key in Counters(calls) ==>
              && Counters(calls)[key].expiresAt - WINDOW <= calls[|calls| - 1].at
              && Bounded(limit, Through(limit, calls, key, a, a + WINDOW), Counters(calls)[key], a)
  {
    if calls != [] {
      var n := |calls| - 1;
      BucketsBound(limit, calls[..n], key, a);
      assert n > 0 ==> calls[..n][n - 1] == calls[n - 1];
      if calls[n].at < a {
        NothingBefore(limit, calls, key, a, a + WINDOW);
      }
    }
  }

  lemma {:induction false} NothingBefore(limit: nat, calls: seq<Call>, key: string, from: int, to: int)
    requires forall i | 0 <= i < |calls| :: calls[i].at < from
    ensures Through(limit, calls, key, from, to) == 0
  {
    if calls != [] {
      NothingBefore(limit, calls[..|calls| - 1], key, from, to);
    }
  }

  /**
    For every series of calls whose clock readings do not decrease: in no stretch of one window length,
    ends included, are more than 2 * limit - 1 calls of a key let through.
   */
  lemma AtMostTwiceTheLimit(limit: nat, calls: seq<Call>, key: string, a: int)
    requires limit > 0 && InOrder(calls)
    ensures Through(limit, calls, key, a, a + 60_000_000_000) <= 2 * limit - 1
  {
    BucketsBound(limit, calls, key, a);
  }

  /** Within the open bucket of a key: as many calls as were made got through, up to the limit. */
  lemma {:induction false} ThroughInBucket(limit: nat, calls: seq<Call>, key: string, to: int)
    requires limit > 0 && InOrder(calls) && key in Counters(calls) && calls[|calls| - 1].at <= to
    ensures var bucket := Counters(calls)[key];
            && bucket.count >= 1 && bucket.expiresAt - WINDOW <= calls[|calls| - 1].at
            && Through(limit, calls, key, bucket.expiresAt - WINDOW, to) == Min(bucket.count, limit)
  {
    var n := |calls| - 1;
    var before := calls[..n];
    if n > 0 {
      assert before[n - 1] == calls[n - 1];
      if Opens(Counters(before), calls[n]) && calls[n].key == key {
        NoneSince(limit, before, key, calls[n].at, to);
      } else if key in Counters(before) {
        ThroughInBucket(limit, before, key, to);
      }
    }
  }

  /** Calls of a bucket are not made after it has closed. */
  lemma {:induction false} NoneSince(limit: nat, calls: seq<Call>, key: string, from: int, to: int)
    requires InOrder(calls) && (key in Counters(calls) ==> Counters(calls)[key].expiresAt < from)
    ensures Through(limit, calls, key, from, to) == 0
  {
    if calls != [] {
      var n := |calls| - 1;
      if calls[n].key == key {
        assert calls[n].at <= Counters(calls)[key].expiresAt;
        NothingBefore(limit, calls, key, from, to);
      } else {
        NoneSince(limit, calls[..n], key, from, to);
      }
    }
  }

  /**
    The limiter refuses a call exactly when the bucket of its key is open and `limit` calls of that key
    have got through since it opened, which is no longer ago than one window.
   */
  lemma RefusedIff(limit: nat, calls: seq<Call>, i: nat)
    requires limit > 0 && InOrder(calls) && i < |calls|
    ensures var call := calls[i]; var open := Counters(calls[..i]);
            Allowed(limit, calls, i) <==>
            || Opens(open, call)
            || Through(limit, calls[..i], call.key, open[call.key].expiresAt - 60_000_000_000, call.at) < limit
    ensures var call := calls[i]; var open := Counters(calls[..i]);
            !Opens(open, call) ==> call.at - 60_000_000_000 <= open[call.key].expiresAt - 60_000_000_000 <= call.at
  {
    var open := Counters(calls[..i]);
    if calls[i].key in open {
      ThroughInBucket(limit, calls[..i], calls[i].key, calls[i].at);
    }
  }

  // ---------------------------------------------------------------- one key at a time

  function OfKey(calls: seq<Call>, key: string): seq<Call> {
    if calls == [] then []
    else
      var n := |calls| - 1;
      OfKey(calls[..n], key) + if calls[n].key == key then [calls[n]] else []
  }

  lemma {:induction false} BucketsAreSeparate(calls: seq<Call>, key: string)
    ensures key in Counters(calls) <==> key in Counters(OfKey(calls, key))
    ensures key in Counters(calls) ==> Counters(calls)[key] == Counters(OfKey(calls, key))[key]
  {
    if calls != [] {
      var n := |calls| - 1;
      BucketsAreSeparate(calls[..n], key);
      var of := OfKey(calls[..n], key);
      assert (of + [calls[n]])[..|of|] == of && of + [] == of;
    }
  }

  /** What is let through for a key depends on the calls for that key alone. */
  lemma {:induction false} OtherKeysDoNotMatter(limit: nat, calls: seq<Call>, key: string, from: int, to: int)
    ensures Through(limit, calls, key, from, to) == Through(limit, OfKey(calls, key), key, from, to)
  {
    if calls != [] {
      var n := |calls| - 1;
      OtherKeysDoNotMatter(limit, calls[..n], key, from, to);
      BucketsAreSeparate(calls[..n], key);
      var of := OfKey(calls[..n], key);
      if calls[n].key == key {
        OneMoreCall(limit, of, calls[n], key, from, to);
      } else {
        assert of + [] == of;
      }
    }
  }

  // ---------------------------------------------------------------- the bound is reached

  function Repeat(call: Call, n: nat): seq<Call> {
    seq(n, _ => call)
  }

  /** Further calls at one time into an open bucket. */
  lemma {:induction false} FillBucket(limit: nat, calls: seq<Call>, call: Call, n: nat, from: int, to: int)
    requires call.key in Counters(calls) && call.at <= Counters(calls)[call.key].expiresAt
    requires Counters(calls)[call.key].count + n <= limit && from <= call.at <= to
    ensures var more := calls + Repeat(call, n);
            && call.key in Counters(more)
            && Counters(more)[call.key] == Counters(calls)[call.key].(count := Counters(calls)[call.key].count + n)
            && Through(limit, more, call.key, from, to) == Through(limit, calls, call.key, from, to) + n
  {
    if n == 0 {
      assert calls + Repeat(call, 0) == calls;
    } else {
      FillBucket(limit, calls, call, n - 1, from, to);
      OneMoreCall(limit, calls + Repeat(call, n - 1), call, call.key, from, to);
      assert calls + Repeat(call, n) == calls + Repeat(call, n - 1) + [call];
    }
  }

  lemma OneMoreCall(limit: nat, calls: seq<Call>, call: Call, key: string, from: int, to: int)
    ensures Counters(calls + [call]) == Counters(calls)[call.key := Taken(Counters(calls), call)]
    ensures Through(limit, calls + [call], key, from, to) == Through(limit, calls, key, from, to)
            + if call.key == key && from <= call.at <= to && Taken(Counters(calls), call).count <= limit then 1 else 0
  {
  }

  /** One call at 0, the rest of its bucket at the last moment, then a new bucket. */
  function Burst(limit: nat, key: string): seq<Call>
    requires limit > 0
  {
    [Call(key, 0)] + Repeat(Call(key, WINDOW), limit - 1) + [Call(key, WINDOW + 1)]
      + Repeat(Call(key, WINDOW + 1), limit - 1)
  }

  /** For every limit there are calls in order of time that reach the bound of AtMostTwiceTheLimit. */
  lemma BoundIsReached(limit: nat, key: string)
    requires limit > 0
    ensures InOrder(Burst(limit, key))
    ensures Through(limit, Burst(limit, key), key, 1, 60_000_000_001) == 2 * limit - 1
  {
    hide Counters, Through;
    var full := FirstBucket(limit, key);
    var next := Call(key, WINDOW + 1);
    assert full + [next] + Repeat(next, limit - 1) == Burst(limit, key);
    OneMoreCall(limit, full, next, key, 1, 1 + WINDOW);
    FillBucket(limit, full + [next], next, limit - 1, 1, 1 + WINDOW);
  }

  lemma {:induction false} FirstBucket(limit: nat, key: string) returns (full: seq<Call>)
    requires limit > 0
    ensures full == [Call(key, 0)] + Repeat(Call(key, WINDOW), limit - 1)
    ensures key in Counters(full) && Counters(full)[key] == Bucket(limit, WINDOW)
    ensures Through(limit, full, key, 1, 1 + WINDOW) == limit - 1
  {
    full := [Call(key, 0)] + Repeat(Call(key, WINDOW), limit - 1);
    OneMoreCall(limit, [], Call(key, 0), key, 1, 1 + WINDOW);
    assert [] + [Call(key, 0)] == [Call(key, 0)];
    FillBucket(limit, [Call(key, 0)], Call(key, WINDOW), limit - 1, 1, 1 + WINDOW);
  }
}
