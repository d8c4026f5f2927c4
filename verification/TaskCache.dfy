/**
  internal/travel/task_cache.go: a cache of finished tasks and of the tasks of request hashes, in
  front of the store of record.
 */
module TaskCache {
  import opened Wrappers
  import opened TaskStore

  predicate IsTerminal(s: Status) {
    s.Succeeded? || s.Failed? || s.Canceled? || s.DeadLetter?
  }

  /** Everything cached is finished, and is what the store of record holds. */
  ghost predicate Agrees(a: Authority, tasks: map<string, Task>, ids: map<string, string>) {
    && (forall id | id in tasks :: IsTerminal(tasks[id].status) && Lookup(a, id) == Some(tasks[id]))
    && (forall h | h in ids :: h in a.index && a.index[h] == ids[h])
  }

  /** Storing this task neither rewrites a finished one nor gives a hash a second task. */
  ghost predicate Fits(a: Authority, task: Task) {
    && (task.id in a.tasks && IsTerminal(a.tasks[task.id].status) ==> a.tasks[task.id] == task)
    && (task.requestHash in a.index ==> a.index[task.requestHash] == task.id)
  }

  /** What caching a task adds. */
  function WithHash(ids: map<string, string>, task: Task): map<string, string> {
    if task.requestHash != "" && task.id != "" then ids[task.requestHash := task.id] else ids
  }

  function WithTask(tasks: map<string, Task>, task: Task): map<string, Task> {
    if IsTerminal(task.status) && task.id != "" then tasks[task.id := task] else tasks
  }

  lemma CachingKeepsAgreement(a: Authority, tasks: map<string, Task>, ids: map<string, string>, task: Task)
    requires Agrees(a, tasks, ids)
    requires Indexed(a) && Lookup(a, task.id) == Some(task)
    ensures Agrees(a, tasks, WithHash(ids, task)) && Agrees(a, WithTask(tasks, task), ids)
    ensures Agrees(a, WithTask(tasks, task), WithHash(ids, task))
  {
  }

  /** Storing a task that fits leaves the cache right. */
  lemma StoringKeepsAgreement(a: Authority, tasks: map<string, Task>, ids: map<string, string>, task: Task)
    requires Indexed(a) && Agrees(a, tasks, ids) && Fits(a, task)
    ensures Indexed(Storing(a, task)) && Agrees(Storing(a, task), tasks, ids)
    ensures Lookup(Storing(a, task), task.id) == Some(task)
  {
  }

  /** A task that is found goes by its own id. */
  lemma FoundById(a: Authority, id: string)
    requires Indexed(a) && Lookup(a, id).Some?
    ensures Lookup(a, Lookup(a, id).value.id) == Lookup(a, id)
  {
  }

  /** A cached value, and when it expires; None is never. */
  datatype Entry<T> = Entry(value: T, expiresAt: Option<int>)

  class MemoryTaskCache {
    const ttl: int
    var tasks: map<string, Entry<Task>>
    var hashToID: map<string, Entry<string>>

    constructor (ttl: int)
      ensures this.ttl == ttl && tasks == map[] && hashToID == map[]
    {
      this.ttl := ttl;
      tasks := map[];
      hashToID := map[];
    }

    function ExpiresAt(now: int): (at: Option<int>)
      ensures at.None? <==> ttl <= 0
      ensures at.Some? ==> at.value > now
    {
      if ttl <= 0 then None else Some(now + ttl)
    }

    static predicate Expired<T>(e: Entry<T>, now: int) {
      e.expiresAt.Some? && now > e.expiresAt.value
    }

    /** What is found under each key, at any time, if it has not expired by then. */
    ghost function Tasks(): map<string, Task>
      reads this
    {
      map id | id in tasks :: tasks[id].value
    }

    ghost function Ids(): map<string, string>
      reads this
    {
      map h | h in hashToID :: hashToID[h].value
    }

    /** The entries that never expire, or not before now. */
    static ghost function Unexpired<T>(entries: map<string, Entry<T>>, now: int): map<string, T> {
      map k | k in entries && (entries[k].expiresAt == None || now <= entries[k].expiresAt.value) :: entries[k].value
    }

    method SetRequestHash(alive: bool, now: int, hash: string, id: string)
      modifies this`hashToID
      ensures hashToID == if alive && hash != "" && id != "" then
                            old(hashToID)[hash := Entry(id, if ttl <= 0 then None else Some(now + ttl))]
                          else old(hashToID)
      ensures Ids() == if alive && hash != "" && id != "" then old(Ids())[hash := id] else old(Ids())
    {
      if alive && hash != "" && id != "" {
        hashToID := hashToID[hash := Entry(id, ExpiresAt(now))];
      }
    }

    method GetTaskIDByHash(alive: bool, now: int, hash: string) returns (found: Option<string>)
      ensures found.Some? <==> alive && hash in Unexpired(hashToID, now)
      ensures found.Some? ==> found.value == Ids()[hash] == Unexpired(hashToID, now)[hash]
    {
      if !alive || hash !in hashToID || Expired(hashToID[hash], now) {
        return None;
      }
      return Some(hashToID[hash].value);
    }

    method SetTask(alive: bool, now: int, task: Task)
      modifies this`tasks
      ensures tasks == if alive && task.id != "" then
                         old(tasks)[task.id := Entry(task, if ttl <= 0 then None else Some(now + ttl))]
                       else old(tasks)
      ensures Tasks() == if alive && task.id != "" then old(Tasks())[task.id := task] else old(Tasks())
    {
      if alive && task.id != "" {
        tasks := tasks[task.id := Entry(task, ExpiresAt(now))];
      }
    }

    method GetTask(alive: bool, now: int, id: string) returns (found: Option<Task>)
      ensures found.Some? <==> alive && id in Unexpired(tasks, now)
      ensures found.Some? ==> found.value == Tasks()[id] == Unexpired(tasks, now)[id]
    {
      if !alive || id !in tasks || Expired(tasks[id], now) {
        return None;
      }
      return Some(tasks[id].value);
    }
  }

  /** What a cached store answers. */
  datatype Answer = Found(task: Task) | NotFound | Accepted | Error

  /** What the store of record would have answered. */
  function Told(found: Option<Task>): Answer {
    if found.Some? then Found(found.value) else NotFound
  }

  /**
    One call at a time. `up` and `cacheUp` say whether the store of record and the cache work for the
    call; a cache that works in one step of the call and fails in another is the business of the runs
    below, as are calls that overlap.
   */
  class CachedTaskStore {
    const authority: MemoryTaskStore
    const cache: MemoryTaskCache

    constructor (authority: MemoryTaskStore, cache: MemoryTaskCache)
      requires Indexed(authority.Held()) && Agrees(authority.Held(), cache.Tasks(), cache.Ids())
      ensures this.authority == authority && this.cache == cache && Valid()
    {
      this.authority := authority;
      this.cache := cache;
    }

    ghost predicate Valid()
      reads this, authority, cache
    {
      Indexed(authority.Held()) && Agrees(authority.Held(), cache.Tasks(), cache.Ids())
    }

    method CacheTask(cacheUp: bool, now: int, task: Task)
      modifies cache
      ensures cache.Ids() == if cacheUp then WithHash(old(cache.Ids()), task) else old(cache.Ids())
      ensures cache.Tasks() == if cacheUp then WithTask(old(cache.Tasks()), task) else old(cache.Tasks())
      ensures old(Valid()) && Lookup(authority.Held(), task.id) == Some(task) ==> Valid()
    {
      hide Indexed, Agrees, IndexedAt;
      if Valid() && Lookup(authority.Held(), task.id) == Some(task) {
        CachingKeepsAgreement(authority.Held(), cache.Tasks(), cache.Ids(), task);
      }
      if task.requestHash != "" {
        cache.SetRequestHash(cacheUp, now, task.requestHash, task.id);
      }
      if IsTerminal(task.status) {
        cache.SetTask(cacheUp, now, task);
      }
    }

    /** What the cache holds afterwards: also the task that was found or stored, if any was and the cache works. */
    twostate predicate Caches(task: Option<Task>)
      reads cache
    {
      if task.None? then cache.Tasks() == old(cache.Tasks()) && cache.Ids() == old(cache.Ids())
      else
        && cache.Tasks() == WithTask(old(cache.Tasks()), task.value)
        && cache.Ids() == WithHash(old(cache.Ids()), task.value)
    }

    /** A cached task is answered though the store of record fails; one that is not cached is not. */
    method Get(up: bool, cacheUp: bool, now: int, id: string) returns (r: Answer)
      requires Valid()
      modifies cache
      ensures Valid()
      ensures up ==> r == Told(Lookup(authority.Held(), id))
      ensures var hit := cacheUp && id in MemoryTaskCache.Unexpired(old(cache.tasks), now);
              && (!up ==> r == if hit then Told(Lookup(authority.Held(), id)) else Error)
              && Caches(if !hit && cacheUp && r.Found? then Some(r.task) else None)
    {
      hide Indexed, IndexedAt, WithHash, WithTask;
      var cached := cache.GetTask(cacheUp, now, id);
      if cached.Some? && IsTerminal(cached.value.status) {
        return Found(cached.value);
      }
      var ok, found := authority.Get(up, id);
      if !ok {
        return Error;
      }
      if found.None? {
        return NotFound;
      }
      FoundById(authority.Held(), id);
      CacheTask(cacheUp, now, found.value);
      return Found(found.value);
    }

    method FindByHash(up: bool, cacheUp: bool, now: int, hash: string) returns (r: Answer)
      requires Valid()
      modifies cache
      ensures Valid()
      ensures r == if up then Told(LookupByHash(authority.Held(), hash)) else Error
      ensures Caches(if cacheUp && r.Found? then Some(r.task) else None)
    {
      hide Indexed, IndexedAt, WithHash, WithTask;
      var cached := cache.GetTaskIDByHash(cacheUp, now, hash);
      if cached.Some? {
        var ok, found := authority.Get(up, cached.value);
        if !ok {
          return Error;
        }
        if found.Some? {
          FoundById(authority.Held(), cached.value);
          CacheTask(cacheUp, now, found.value);
          return Found(found.value);
        }
      }
      var ok, found := authority.FindByHash(up, hash);
      if !ok {
        return Error;
      }
      if found.Some? {
        FoundById(authority.Held(), authority.Held().index[hash]);
        CacheTask(cacheUp, now, found.value);
      }
      return Told(found);
    }

    method Create(up: bool, cacheUp: bool, now: int, task: Task) returns (ok: bool)
      requires Valid()
      modifies authority, cache
      ensures ok == up
      ensures authority.Held() == if ok then Storing(old(authority.Held()), task) else old(authority.Held())
      ensures Fits(old(authority.Held()), task) ==> Valid()
      ensures Caches(if cacheUp && ok then Some(task) else None)
    {
      hide Indexed, Agrees, IndexedAt, WithHash, WithTask, Fits;
      if Fits(authority.Held(), task) {
        StoringKeepsAgreement(authority.Held(), cache.Tasks(), cache.Ids(), task);
      }
      ok := authority.Create(up, task);
      if ok {
        CacheTask(cacheUp, now, task);
      }
    }

    method Update(up: bool, cacheUp: bool, now: int, task: Task) returns (ok: bool)
      requires Valid()
      modifies authority, cache
      ensures ok <==> up && old(Lookup(authority.Held(), task.id)).Some?
      ensures authority.Held() == if ok then Storing(old(authority.Held()), task) else old(authority.Held())
      ensures Fits(old(authority.Held()), task) ==> Valid()
      ensures Caches(if cacheUp && ok then Some(task) else None)
    {
      hide Indexed, Agrees, IndexedAt, WithHash, WithTask, Fits;
      if Fits(authority.Held(), task) {
        StoringKeepsAgreement(authority.Held(), cache.Tasks(), cache.Ids(), task);
      }
      var known;
      ok, known := authority.Update(up, task);
      if ok {
        CacheTask(cacheUp, now, task);
      }
    }
  }
}
