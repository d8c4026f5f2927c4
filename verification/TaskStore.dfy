/** internal/travel/task_store.go: the store of record. */
module TaskStore {
  import opened Wrappers

  datatype Status = Pending | Running | Succeeded | Failed | Canceled | DeadLetter

  /** `content` stands for every field of a task that storing it does not look at. */
  datatype Task = Task(id: string, requestHash: string, status: Status, content: string)

  datatype Authority = Authority(tasks: map<string, Task>, index: map<string, string>)

  /** What Get and FindByHash answer, and what Create and an admissible Update store. */
  function Lookup(a: Authority, id: string): Option<Task> {
    if id in a.tasks then Some(a.tasks[id]) else None
  }

  function LookupByHash(a: Authority, hash: string): Option<Task> {
    if hash in a.index then Lookup(a, a.index[hash]) else None
  }

  function Storing(a: Authority, task: Task): Authority {
    Authority(a.tasks[task.id := task], a.index[task.requestHash := task.id])
  }

  /** Every task is found under its id and under its hash. */
  ghost predicate Indexed(a: Authority) {
    && (forall h | h in a.index :: a.index[h] in a.tasks)
    && (forall id | id in a.tasks :: IndexedAt(a, id))
  }

  ghost predicate IndexedAt(a: Authority, id: string)
    requires id in a.tasks
  {
    && a.tasks[id].id == id
    && a.tasks[id].requestHash in a.index && a.index[a.tasks[id].requestHash] == id
  }

  class MemoryTaskStore {
    var tasks: map<string, Task>
    var hashToID: map<string, string>

    ghost function Held(): Authority
      reads this
    {
      Authority(tasks, hashToID)
    }

    constructor ()
      ensures Held() == Authority(map[], map[])
    {
      tasks := map[];
      hashToID := map[];
    }

    /** `alive` tells that the caller's context has not ended. */
    method Create(alive: bool, task: Task) returns (ok: bool)
      modifies this
      ensures ok == alive
      ensures Held() == if ok then Storing(old(Held()), task) else old(Held())
      ensures ok ==> Lookup(Held(), task.id) == Some(task) && LookupByHash(Held(), task.requestHash) == Some(task)
    {
      if !alive {
        return false;
      }
      tasks := tasks[task.id := task];
      hashToID := hashToID[task.requestHash := task.id];
      return true;
    }

    /** `known` is false for ErrTaskNotFound. */
    method Update(alive: bool, task: Task) returns (ok: bool, known: bool)
      modifies this
      ensures ok <==> alive && known
      ensures known <==> (alive ==> old(Lookup(Held(), task.id)).Some?)
      ensures Held() == if ok then Storing(old(Held()), task) else old(Held())
    {
      if !alive {
        return false, true;
      }
      if task.id !in tasks {
        return false, false;
      }
      tasks := tasks[task.id := task];
      hashToID := hashToID[task.requestHash := task.id];
      return true, true;
    }

    method Get(alive: bool, id: string) returns (ok: bool, found: Option<Task>)
      ensures ok == alive
      ensures found == if ok then Lookup(Held(), id) else None
    {
      if !alive {
        return false, None;
      }
      if id !in tasks {
        return true, None;
      }
      return true, Some(tasks[id]);
    }

    method FindByHash(alive: bool, hash: string) returns (ok: bool, found: Option<Task>)
      ensures ok == alive
      ensures found == if ok then LookupByHash(Held(), hash) else None
    {
      if !alive {
        return false, None;
      }
      if hash !in hashToID {
        return true, None;
      }
      var id := hashToID[hash];
      if id !in tasks {
        return true, None;
      }
      return true, Some(tasks[id]);
    }
  }
}
