/**
  internal/travel/locks.go: a lock per request hash that runs out after a while. The one in memory is
  freed by whoever releases; the one in Redis only by the holder of its token.
 */
module RequestLock {
  import opened Wrappers

  type Holder = nat // a call that acquired; it stands for the random token it drew

  /** Who took the lock, and when it runs out. */
  datatype Entry = Entry(holder: Holder, expiresAt: int)

  predicate Live(e: Entry, now: int) {
    e.expiresAt > now
  }

  predicate IsTaken(locks: map<string, Entry>, hash: string, now: int) {
    hash in locks && Live(locks[hash], now)
  }

  /** The answer to Acquire, and what its release function does. */
  datatype Acquired = Unavailable | Refused | NotNeeded | Holding(holder: Holder)

  /** The memory lock stores no holder: `holders` is kept beside the expiry times to reason about it. */
  class MemoryRequestLock {
    const ttl: int
    var locks: map<string, int>
    ghost var holders: map<string, Holder>

    ghost predicate Valid()
      reads this
    {
      ttl > 0 && locks.Keys == holders.Keys
    }

    ghost function Entries(): map<string, Entry>
      requires Valid()
      reads this
    {
      map h | h in locks :: Entry(holders[h], locks[h])
    }

    constructor (ttl: int)
      ensures Valid() && Entries() == map[] && this.ttl == if ttl <= 0 then 15_000_000_000 else ttl
    {
      this.ttl := if ttl <= 0 then 15_000_000_000 else ttl;
      locks := map[];
      holders := map[];
    }

    method Acquire(alive: bool, hash: string, now: int, caller: Holder) returns (r: Acquired)
      requires Valid()
      modifies this
      ensures Valid()
      ensures r == if !alive then Unavailable
                   else if hash == "" then NotNeeded
                   else if IsTaken(old(Entries()), hash, now) then Refused
                   else Holding(caller)
      ensures Entries() == if r.Holding? then old(Entries())[hash := Entry(caller, now + ttl)] else old(Entries())
      ensures alive && hash != "" ==> Acquires(Memory, ttl, old(Entries()), now, caller, hash, r.Holding?, Entries())
    {
      if !alive {
        return Unavailable;
      }
      if hash == "" {
        return NotNeeded;
      }
      if hash in locks && locks[hash] > now {
        return Refused;
      }
      locks := locks[hash := now + ttl];
      holders := holders[hash := caller];
      return Holding(caller);
    }

    /** The release function of a call that got the lock. */
    method Release(hash: string)
      requires Valid()
      modifies this
      ensures Valid()
      ensures Entries() == old(Entries()) - {hash}
      ensures forall h :: Releases(Memory, ttl, old(Entries()), h, hash, Entries())
    {
      locks := locks - {hash};
      holders := holders - {hash};
    }
  }

  /** The Redis lock: the server sets a key only if it is absent or has run out, and deletes on a matching token. */
  class TokenRequestLock {
    const ttl: int
    var keys: map<string, Entry>

    constructor (ttl: int)
      ensures keys == map[] && this.ttl == if ttl <= 0 then 15_000_000_000 else ttl
    {
      this.ttl := if ttl <= 0 then 15_000_000_000 else ttl;
      keys := map[];
    }

    method Acquire(reachable: bool, hash: string, now: int, token: Holder) returns (r: Acquired)
      modifies this
      ensures r == if hash == "" then NotNeeded
                   else if !reachable then Unavailable
                   else if IsTaken(old(keys), hash, now) then Refused
                   else Holding(token)
      ensures keys == if r.Holding? then old(keys)[hash := Entry(token, now + ttl)] else old(keys)
      ensures reachable && hash != "" ==> Acquires(Token, ttl, old(keys), now, token, hash, r.Holding?, keys)
    {
      if hash == "" {
        return NotNeeded;
      }
      if !reachable {
        return Unavailable;
      }
      if hash in keys && Live(keys[hash], now) {
        return Refused;
      }
      keys := keys[hash := Entry(token, now + ttl)];
      return Holding(token);
    }

    method Release(hash: string, token: Holder)
      modifies this
      ensures keys == if hash in old(keys) && old(keys)[hash].holder == token then old(keys) - {hash} else old(keys)
      ensures Releases(Token, ttl, old(keys), token, hash, keys)
    {
      if hash in keys && keys[hash].holder == token {
        keys := keys - {hash};
      }
    }
  }

  // ---------------------------------------------------------------- runs

  datatype Kind = Memory | Token

  /** A call that got the lock; `released` once its release function has been called. */
  datatype Hold = Hold(hash: string, expiresAt: int, released: bool)

  /** `robbed`: some release has freed a lock that another call had taken and that had not run out. */
  datatype State = State(locks: map<string, Entry>, holds: map<Holder, Hold>, now: int, robbed: bool)

  datatype Step =
    | Acquire(holder: Holder, hash: string)
    | Release(holder: Holder)
    | Tick(now: int)

  const START := State(map[], map[], 0, false)

  /** A step that is not enabled is a call that is refused, and changes nothing. */
  predicate Enabled(s: State, step: Step) {
    match step
    case Acquire(h, hash) => h !in s.holds && !IsTaken(s.locks, hash, s.now)
    case Release(h) => h in s.holds && !s.holds[h].released
    case Tick(now) => now >= s.now
  }

  /** The release of this call deletes the entry of its hash. */
  predicate Deletes(kind: Kind, s: State, h: Holder)
    requires h in s.holds
  {
    s.holds[h].hash in s.locks && (kind.Memory? || s.locks[s.holds[h].hash].holder == h)
  }

  /** The release of this call deletes an entry that is somebody else's and has not run out. */
  predicate Robs(kind: Kind, s: State, h: Holder)
    requires h in s.holds
  {
    Deletes(kind, s, h) && IsTaken(s.locks, s.holds[h].hash, s.now) && s.locks[s.holds[h].hash].holder != h
  }

  function Apply(kind: Kind, ttl: int, s: State, step: Step): State
    requires Enabled(s, step)
  {
    match step
    case Acquire(h, hash) =>
      s.(locks := if hash == "" then s.locks else s.locks[hash := Entry(h, s.now + ttl)],
         holds := s.holds[h := Hold(hash, s.now + ttl, false)])
    case Release(h) =>
      s.(locks := if Deletes(kind, s, h) then s.locks - {s.holds[h].hash} else s.locks,
         holds := s.holds[h := s.holds[h].(released := true)],
         robbed := s.robbed || Robs(kind, s, h))
    case Tick(now) => s.(now := now)
  }

  /** A call of Acquire is the step of the runs: it gets the lock exactly when the step is enabled. */
  ghost predicate Acquires(kind: Kind, ttl: int, before: map<string, Entry>, now: int, h: Holder, hash: string,
                           got: bool, after: map<string, Entry>) {
    var s := State(before, map[], now, false);
    && (got <==> Enabled(s, Acquire(h, hash)))
    && after == if got then Apply(kind, ttl, s, Acquire(h, hash)).locks else before
  }

  ghost predicate Releases(kind: Kind, ttl: int, before: map<string, Entry>, h: Holder, hash: string,
                           after: map<string, Entry>) {
    var s := State(before, map[h := Hold(hash, 0, false)], 0, false);
    after == Apply(kind, ttl, s, Release(h)).locks
  }

  ghost predicate Possible(kind: Kind, ttl: int, s: State, steps: seq<Step>)
    decreases |steps|
  {
    steps == [] || (Enabled(s, steps[0]) && Possible(kind, ttl, Apply(kind, ttl, s, steps[0]), steps[1..]))
  }

  ghost function After(kind: Kind, ttl: int, s: State, steps: seq<Step>): State
    requires Possible(kind, ttl, s, steps)
    decreases |steps|
  {
    if steps == [] then s else After(kind, ttl, Apply(kind, ttl, s, steps[0]), steps[1..])
  }

  /** The call has the lock: it has not released it, and it has not run out. */
  predicate Holds(s: State, h: Holder, hash: string) {
    h in s.holds && s.holds[h].hash == hash && !s.holds[h].released && s.holds[h].expiresAt > s.now
  }

  ghost predicate Exclusive(s: State, hash: string) {
    forall h, g | Holds(s, h, hash) && Holds(s, g, hash) :: h == g
  }

  /** Whoever has a lock is entered as its holder; whoever is entered did take it. */
  ghost predicate Inv(s: State) {
    && "" !in s.locks
    && (forall hash | hash in s.locks ::
          && s.locks[hash].holder in s.holds
          && s.holds[s.locks[hash].holder].hash == hash
          && !s.holds[s.locks[hash].holder].released
          && s.holds[s.locks[hash].holder].expiresAt == s.locks[hash].expiresAt)
    && (!s.robbed ==>
          forall h | h in s.holds && Holds(s, h, s.holds[h].hash) && s.holds[h].hash != "" ::
            s.holds[h].hash in s.locks && s.locks[s.holds[h].hash].holder == h)
  }

  lemma StepKeepsInv(kind: Kind, ttl: int, s: State, step: Step)
    requires Inv(s) && Enabled(s, step)
    ensures Inv(Apply(kind, ttl, s, step))
  {
  }

  lemma {:induction false} RunKeepsInv(kind: Kind, ttl: int, s: State, steps: seq<Step>)
    requires Inv(s) && Possible(kind, ttl, s, steps)
    ensures Inv(After(kind, ttl, s, steps))
    decreases |steps|
  {
    hide Inv, Apply, Enabled;
    if steps != [] {
      StepKeepsInv(kind, ttl, s, steps[0]);
      RunKeepsInv(kind, ttl, Apply(kind, ttl, s, steps[0]), steps[1..]);
    }
  }

  /** A lock with tokens is never robbed. */
  lemma {:induction false} TokensAreNotRobbed(ttl: int, s: State, steps: seq<Step>)
    requires Possible(Token, ttl, s, steps) && !s.robbed
    ensures !After(Token, ttl, s, steps).robbed
    decreases |steps|
  {
    hide Enabled;
    if steps != [] {
      TokensAreNotRobbed(ttl, Apply(Token, ttl, s, steps[0]), steps[1..]);
    }
  }

  /** Every call releases, if at all, before its lock has run out. */
  ghost predicate InTime(kind: Kind, ttl: int, s: State, steps: seq<Step>)
    requires Possible(kind, ttl, s, steps)
    decreases |steps|
  {
    steps == []
    || ((steps[0].Release? ==> s.holds[steps[0].holder].expiresAt > s.now)
        && InTime(kind, ttl, Apply(kind, ttl, s, steps[0]), steps[1..]))
  }

  lemma {:induction false} NoRobberyInTime(kind: Kind, ttl: int, s: State, steps: seq<Step>)
    requires Inv(s) && Possible(kind, ttl, s, steps) && InTime(kind, ttl, s, steps) && !s.robbed
    ensures !After(kind, ttl, s, steps).robbed
    decreases |steps|
  {
    if steps != [] {
      StepKeepsInv(kind, ttl, s, steps[0]);
      hide Inv, Apply, Enabled;
      NoRobberyInTime(kind, ttl, Apply(kind, ttl, s, steps[0]), steps[1..]);
    }
  }

  // ---------------------------------------------------------------- for every run

  /**
    On every run the lock of a hash that is not empty has at most one holder: always with tokens, and
    without them if every release comes before the lock runs out.
   */
  lemma AtMostOneHolder(kind: Kind, ttl: int, steps: seq<Step>, hash: string)
    requires Possible(kind, ttl, START, steps) && hash != ""
    requires kind == Token || InTime(kind, ttl, START, steps)
    ensures Exclusive(After(kind, ttl, START, steps), hash)
  {
    if kind == Token {
      TokensAreNotRobbed(ttl, START, steps);
    } else {
      NoRobberyInTime(kind, ttl, START, steps);
    }
    ExclusiveUnlessRobbed(kind, ttl, steps, hash);
  }

  /** Exclusion can be lost only by the release of a lock that has run out and that another call has taken. */
  lemma ExclusiveUnlessRobbed(kind: Kind, ttl: int, steps: seq<Step>, hash: string)
    requires Possible(kind, ttl, START, steps) && hash != ""
    ensures After(kind, ttl, START, steps).robbed || Exclusive(After(kind, ttl, START, steps), hash)
  {
    RunKeepsInv(kind, ttl, START, steps);
    hide Possible, After;
  }

  /** With tokens a release, however late, takes the lock from nobody else: it stays entered and excludes. */
  lemma LateReleaseFreesNobody(ttl: int, steps: seq<Step>, h: Holder, other: Holder, hash: string)
    requires Possible(Token, ttl, START, steps) && Enabled(After(Token, ttl, START, steps), Release(h))
    requires Holds(After(Token, ttl, START, steps), other, hash) && other != h && hash != ""
    ensures var s := Apply(Token, ttl, After(Token, ttl, START, steps), Release(h));
            Holds(s, other, hash) && IsTaken(s.locks, hash, s.now) && s.locks[hash].holder == other
  {
    TokensAreNotRobbed(ttl, START, steps);
    RunKeepsInv(Token, ttl, START, steps);
    hide Possible, After;
  }

  /**
    On every run: a call is refused the lock of a hash only while another holds it, and, unless a lock was
    freed for somebody else, always while another holds it. The empty hash is refused to nobody.
   */
  lemma RefusedIffHeld(kind: Kind, ttl: int, steps: seq<Step>, next: Holder, hash: string)
    requires Possible(kind, ttl, START, steps) && next !in After(kind, ttl, START, steps).holds
    ensures var s := After(kind, ttl, START, steps);
            && (!Enabled(s, Acquire(next, hash)) ==> hash != "" && exists h :: Holds(s, h, hash))
            && (!s.robbed && hash != "" && (exists h :: Holds(s, h, hash)) ==> !Enabled(s, Acquire(next, hash)))
  {
    RunKeepsInv(kind, ttl, START, steps);
    hide Possible, After;
    var s := After(kind, ttl, START, steps);
    if !Enabled(s, Acquire(next, hash)) {
      assert Holds(s, s.locks[hash].holder, hash);
    }
  }

  lemma {:induction false} UntilReleased(kind: Kind, ttl: int, s: State, steps: seq<Step>, h: Holder)
    requires Possible(kind, ttl, s, steps) && Release(h) !in steps && h in s.holds
    ensures h in After(kind, ttl, s, steps).holds && After(kind, ttl, s, steps).holds[h] == s.holds[h]
    decreases |steps|
  {
    if steps != [] {
      assert steps[0] in steps && forall step | step in steps[1..] :: step in steps;
      UntilReleased(kind, ttl, Apply(kind, ttl, s, steps[0]), steps[1..], h);
    }
  }

  /** Whoever acquires holds the lock for exactly the time to live from then on, unless it releases it before. */
  lemma HeldForItsTime(kind: Kind, ttl: int, s: State, h: Holder, hash: string, steps: seq<Step>)
    requires Enabled(s, Acquire(h, hash))
    requires Possible(kind, ttl, Apply(kind, ttl, s, Acquire(h, hash)), steps) && Release(h) !in steps
    ensures var later := After(kind, ttl, Apply(kind, ttl, s, Acquire(h, hash)), steps);
            Holds(later, h, hash) <==> later.now < s.now + ttl
  {
    UntilReleased(kind, ttl, Apply(kind, ttl, s, Acquire(h, hash)), steps, h);
    hide Possible, After;
  }

  /** As long as no lock was freed for somebody else: whoever releases a lock it holds lets the next call in. */
  lemma ReleaseLetsIn(kind: Kind, ttl: int, steps: seq<Step>, h: Holder, hash: string, next: Holder)
    requires Possible(kind, ttl, START, steps) && !After(kind, ttl, START, steps).robbed
    requires Holds(After(kind, ttl, START, steps), h, hash) && next !in After(kind, ttl, START, steps).holds
    ensures var s := After(kind, ttl, START, steps);
            Enabled(s, Release(h)) && Enabled(Apply(kind, ttl, s, Release(h)), Acquire(next, hash))
  {
    RunKeepsInv(kind, ttl, START, steps);
    hide Possible, After;
  }

  /**
    The memory lock, as long as exclusion has not been lost: after a release the next call can come to
    hold a lock that another call still holds if and only if the lock of that hash had run out for the
    releasing call and was taken, and not yet run out, by another.
   */
  lemma ReleaseRobsIff(ttl: int, steps: seq<Step>, h: Holder, next: Holder)
    requires Possible(Memory, ttl, START, steps) && Enabled(After(Memory, ttl, START, steps), Release(h))
    requires ttl > 0 && !After(Memory, ttl, START, steps).robbed
    requires next !in After(Memory, ttl, START, steps).holds
    ensures var s := After(Memory, ttl, START, steps);
            var s' := Apply(Memory, ttl, s, Release(h));
            s.holds[h].hash != "" ==>
              (TwoHoldAfter(Memory, ttl, s', Acquire(next, s.holds[h].hash)) <==>
               IsTaken(s.locks, s.holds[h].hash, s.now) && s.locks[s.holds[h].hash].holder != h)
  {
    RunKeepsInv(Memory, ttl, START, steps);
    hide Possible, After;
    var s := After(Memory, ttl, START, steps);
    var hash := s.holds[h].hash;
    if hash != "" {
      var s' := Apply(Memory, ttl, s, Release(h));
      StepKeepsInv(Memory, ttl, s, Release(h));
      if hash in s.locks && Robs(Memory, s, h) {
        var last := Apply(Memory, ttl, s', Acquire(next, hash));
        assert Holds(last, s.locks[hash].holder, hash) && Holds(last, next, hash);
      }
    }
  }

  ghost predicate TwoHoldAfter(kind: Kind, ttl: int, s: State, step: Step)
    requires step.Acquire?
  {
    Enabled(s, step) && !Exclusive(Apply(kind, ttl, s, step), step.hash)
  }

  /** An empty hash excludes nobody, with either lock. */
  lemma EmptyHashExcludesNobody(kind: Kind, ttl: int)
    requires ttl > 0
    ensures Possible(kind, ttl, START, [Acquire(1, ""), Acquire(2, "")])
    ensures !Exclusive(After(kind, ttl, START, [Acquire(1, ""), Acquire(2, "")]), "")
  {
    var steps := [Acquire(1, ""), Acquire(2, "")];
    var s := Apply(kind, ttl, START, steps[0]);
    var s' := Apply(kind, ttl, s, steps[1]);
    assert steps[1..] == [Acquire(2, "")] && steps[1..][1..] == [];
    assert Possible(kind, ttl, s', []) && Possible(kind, ttl, s, steps[1..]);
    assert After(kind, ttl, s, steps[1..]) == s';
    assert Holds(s', 1, "") && Holds(s', 2, "");
  }

  /** One step more at the end of a run. */
  lemma {:induction false} OneMoreStep(kind: Kind, ttl: int, s: State, steps: seq<Step>, step: Step)
    requires Possible(kind, ttl, s, steps) && Enabled(After(kind, ttl, s, steps), step)
    ensures Possible(kind, ttl, s, steps + [step])
    ensures After(kind, ttl, s, steps + [step]) == Apply(kind, ttl, After(kind, ttl, s, steps), step)
    ensures InTime(kind, ttl, s, steps) && InTime(kind, ttl, After(kind, ttl, s, steps), [step]) ==>
              InTime(kind, ttl, s, steps + [step])
    decreases |steps|
  {
    hide Enabled, Apply;
    if steps == [] {
      assert steps + [step] == [step] && [step][1..] == [];
    } else {
      OneMoreStep(kind, ttl, Apply(kind, ttl, s, steps[0]), steps[1..], step);
      assert (steps + [step])[1..] == steps[1..] + [step] && (steps + [step])[0] == steps[0];
    }
  }
}
