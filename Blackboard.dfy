/**
 * The in-memory task store (`InMemoryBlackboard` in app/main.py): a map from
 * task id to task. Creating and updating both overwrite the entry under the
 * task's id; looking up an id gives the task or nothing.
 */
module Blackboard {
  import opened Wrappers
  import opened Domain

  /** Every entry is stored under its own task's id. */
  ghost predicate KeysMatch(tasks: map<Uuid, Task>) {
    forall id :: id in tasks ==> tasks[id].id == id
  }

  /** `self._tasks[task.id] = task` */
  function Store(tasks: map<Uuid, Task>, task: Task): (r: map<Uuid, Task>)
    ensures r.Keys == tasks.Keys + {task.id}
    ensures task.id in r && r[task.id] == task
    ensures forall id :: id in tasks && id != task.id ==> r[id] == tasks[id]
    ensures KeysMatch(tasks) ==> KeysMatch(r)
  {
    tasks[task.id := task]
  }

  /** `self._tasks.get(task_id)` */
  function Lookup(tasks: map<Uuid, Task>, id: Uuid): (r: Option<Task>)
    ensures r.Some? <==> id in tasks
    ensures r.Some? ==> r.value == tasks[id]
  {
    if id in tasks then Some(tasks[id]) else None
  }

  /** After a task is stored, looking up its id gives exactly that task. */
  lemma LookupAfterStore(tasks: map<Uuid, Task>, task: Task)
    ensures Lookup(Store(tasks, task), task.id) == Some(task)
  {
  }

  /** Storing a task leaves the lookup of every other id as it was. */
  lemma StoreLeavesOthers(tasks: map<Uuid, Task>, task: Task, id: Uuid)
    requires id != task.id
    ensures Lookup(Store(tasks, task), id) == Lookup(tasks, id)
  {
  }

  /**
   * There is no duplicate check: storing under an id already present replaces
   * the entry (last write wins) and the store does not grow.
   */
  lemma StoreOverwrites(tasks: map<Uuid, Task>, task: Task)
    requires task.id in tasks
    ensures |Store(tasks, task)| == |tasks|
    ensures Lookup(Store(tasks, task), task.id) == Some(task)
  {
  }

  /** Storing a task under a new id adds exactly one entry. */
  lemma StoreNewGrows(tasks: map<Uuid, Task>, task: Task)
    requires task.id !in tasks
    ensures |Store(tasks, task)| == |tasks| + 1
  {
  }

  /**
   * Storing three tasks with distinct ids, one after another: each is found
   * under its id, every other entry is kept, and three new ids add exactly
   * three entries.
   */
  lemma StoreThree(tasks: map<Uuid, Task>, a: Task, b: Task, c: Task)
    requires a.id != b.id && a.id != c.id && b.id != c.id
    ensures var r := Store(Store(Store(tasks, a), b), c);
      && r.Keys == tasks.Keys + {a.id, b.id, c.id}
      && r[a.id] == a && r[b.id] == b && r[c.id] == c
      && (forall id :: id in tasks && id !in {a.id, b.id, c.id} ==> r[id] == tasks[id])
      && (a.id !in tasks && b.id !in tasks && c.id !in tasks ==> |r| == |tasks| + 3)
  {
    if a.id !in tasks && b.id !in tasks && c.id !in tasks {
      StoreNewGrows(tasks, a);
      StoreNewGrows(Store(tasks, a), b);
      StoreNewGrows(Store(Store(tasks, a), b), c);
    }
  }

  class InMemoryBlackboard {
    var tasks: map<Uuid, Task>

    ghost predicate Valid()
      reads this
    {
      KeysMatch(tasks)
    }

    constructor ()
      ensures Valid() && tasks == map[]
    {
      tasks := map[];
    }

    method CreateTask(task: Task)
      requires Valid()
      modifies this
      ensures Valid()
      ensures tasks == Store(old(tasks), task)
    {
      tasks := tasks[task.id := task];
    }

    method UpdateTask(task: Task)
      requires Valid()
      modifies this
      ensures Valid()
      ensures tasks == Store(old(tasks), task)
    {
      tasks := tasks[task.id := task];
    }

    /** A read-only lookup: the method has no frame to modify. */
    method GetTask(id: Uuid) returns (r: Option<Task>)
      ensures r == Lookup(tasks, id)
      ensures Valid() && r.Some? ==> r.value.id == id
    {
      if id in tasks {
        r := Some(tasks[id]);
      } else {
        r := None;
      }
    }
  }
}
