/**
  TaskProcessor, the engine: it owns the task store, the result store and the
  handler registry and updates them in place. Processing runs the retry loop
  whose outcome Retry.Run specifies; the queries are the pure functions of
  the Listing module applied to the stores.
 */
module Processor {
  import opened TaskModel
  import opened Retry
  import opened Listing

  /** The counts get_statistics reports; the average execution time is a float, so only its presence is kept. */
  datatype Statistics = Statistics(
    totalTasks: nat,
    pending: nat,
    processing: nat,
    completed: nat,
    failed: nat,
    retrying: nat,
    hasAverageExecutionTime: bool)

  const InvalidHandlerMessage: string := "task_name e handler devem ser válidos"
  const InvalidTaskMessage: string := "name e payload devem ser válidos"

  /**
    The store invariants: the order lists exactly the stored ids, each task is
    stored under its own id with its retry count within budget, every result
    belongs to a stored task and is terminal, and every task that reached a
    terminal status has the matching result stored.
   */
  ghost predicate StoresValid(tasks: map<string, Task>, order: seq<string>, results: map<string, TaskResult>)
  {
    && |order| == |tasks|
    && (forall k :: k in order <==> k in tasks)
    && (forall k :: k in tasks ==> Consistent(k, tasks[k], results))
    && (forall k :: k in results ==> k in tasks && results[k].taskId == k && IsTerminal(results[k]))
  }

  /**
    The task stored under k carries id k and a retry count within budget, and
    if it reached a terminal status the matching result is stored.
   */
  ghost predicate Consistent(k: string, t: Task, results: map<string, TaskResult>)
  {
    && t.id == k && t.retryCount <= t.maxRetries
    && (t.status == Completed ==> k in results && results[k].status == Completed && results[k].result == t.result)
    && (t.status == Failed ==> k in results && results[k].status == Failed && results[k].error == t.error)
  }

  /** Replacing a stored task by a non-terminal one under the same id keeps the invariants. */
  lemma ReplaceNonTerminal(tasks: map<string, Task>, order: seq<string>, results: map<string, TaskResult>, id: string, t: Task)
    requires StoresValid(tasks, order, results) && id in tasks
    requires t.id == id && t.retryCount <= t.maxRetries && t.status != Completed && t.status != Failed
    ensures StoresValid(tasks[id := t], order, results)
  {
  }

  /** Storing a terminal task together with its matching result keeps the invariants. */
  lemma ReplaceTerminal(tasks: map<string, Task>, order: seq<string>, results: map<string, TaskResult>,
                        id: string, t: Task, r: TaskResult)
    requires StoresValid(tasks, order, results) && id in tasks
    requires t.id == id && t.retryCount <= t.maxRetries
    requires r.taskId == id && IsTerminal(r) && r.status == t.status
    requires t.status == Completed ==> r.result == t.result
    requires t.status == Failed ==> r.error == t.error
    ensures StoresValid(tasks[id := t], order, results[id := r])
  {
  }

  /** Writing a key twice leaves only the second write. */
  lemma UpdateTwice<K, V>(m: map<K, V>, k: K, a: V, b: V)
    ensures m[k := a][k := b] == m[k := b]
  {
  }

  /** Appending one wait and then a run of waits is appending the run that starts with that wait. */
  lemma AppendWaits(a: seq<nat>, w: nat, b: seq<nat>)
    ensures a + [w] + b == a + ([w] + b)
  {
  }

  /** Some stored task is COMPLETED only if some stored result is COMPLETED. */
  lemma CompletedHasResult(tasks: map<string, Task>, order: seq<string>, results: map<string, TaskResult>)
    requires StoresValid(tasks, order, results)
    ensures CountStatus(Lookup(order, tasks), Completed) > 0 ==>
              exists k :: k in results && results[k].status == Completed
  {
    var completed := Select(Lookup(order, tasks), Some(Completed));
    if completed != [] {
      SelectMembers(Lookup(order, tasks), Some(Completed));
      assert completed[0] in Lookup(order, tasks);
      var i :| 0 <= i < |order| && Lookup(order, tasks)[i] == completed[0];
      assert order[i] in results && results[order[i]].status == Completed;
    }
  }

  class TaskProcessor {
    /** The task store, keyed by task id. */
    var tasks: map<string, Task>
    /** The ids of the task store in insertion order, which is the order the store iterates in. */
    var order: seq<string>
    /** The result store, keyed by task id. */
    var results: map<string, TaskResult>
    /** The handler registry, keyed by task name. */
    var handlers: map<string, Handler>
    /** Every backoff wait, in seconds, in the order the engine slept. */
    ghost var delays: seq<nat>

    /** The store invariants, see StoresValid. */
    ghost predicate Valid()
      reads this
    {
      StoresValid(tasks, order, results)
    }

    /** An engine with empty stores and the five built-in task types registered. */
    constructor (sendEmail: Handler, generateReport: Handler, processImage: Handler, syncData: Handler, cleanup: Handler)
      ensures Valid()
      ensures tasks == map[] && order == [] && results == map[] && delays == []
      ensures handlers == map["send_email" := sendEmail, "generate_report" := generateReport,
                              "process_image" := processImage, "sync_data" := syncData, "cleanup" := cleanup]
    {
      tasks := map[];
      order := [];
      results := map[];
      var builtins: map<string, Handler> := map["send_email" := sendEmail, "generate_report" := generateReport,
                      "process_image" := processImage, "sync_data" := syncData, "cleanup" := cleanup];
      handlers := builtins;
      delays := [];
    }

    /** Registers (or replaces) the handler for one task name; an empty name is rejected. */
    method RegisterHandler(name: string, handler: Handler) returns (r: Result<()>)
      requires Valid()
      modifies this`handlers
      ensures Valid()
      ensures r.Err? <==> name == ""
      ensures r.Err? ==> r.error == InvalidArgument(InvalidHandlerMessage) && handlers == old(handlers)
      ensures r.Ok? ==> handlers == old(handlers)[name := handler]
    {
      if name == "" {
        return Err(InvalidArgument(InvalidHandlerMessage));
      }
      handlers := handlers[name := handler];
      return Ok(());
    }

    /**
      Stores a new PENDING task under id, replacing any task stored there; an
      empty name is rejected and leaves the store as it was. A replaced id keeps
      its place in the store's order, a new id goes last.
     */
    method CreateTask(name: string, payload: Dict, priority: TaskPriority, id: string, createdAt: Timestamp)
      returns (r: Result<Task>)
      requires Valid()
      modifies this`tasks, this`order
      ensures Valid()
      ensures r.Err? <==> name == ""
      ensures r.Err? ==> r.error == InvalidArgument(InvalidTaskMessage) && tasks == old(tasks) && order == old(order)
      ensures r.Ok? ==> r.value == NewTask(id, name, payload, priority, createdAt)
      ensures r.Ok? ==> tasks == old(tasks)[id := r.value]
      ensures r.Ok? ==> order == if id in old(tasks) then old(order) else old(order) + [id]
    {
      if name == "" {
        return Err(InvalidArgument(InvalidTaskMessage));
      }
      var task := NewTask(id, name, payload, priority, createdAt);
      if id !in tasks {
        order := order + [id];
      }
      tasks := tasks[id := task];
      return Ok(task);
    }

    /** The success branch of process_task: the attempt started, the task COMPLETED with the output, the result stored. */
    method Complete(id: string, now: Timestamp, output: Dict) returns (r: TaskResult)
      requires Valid() && id in tasks && tasks[id].status != Completed
      modifies this`tasks, this`results
      ensures Valid()
      ensures r == TaskResult(id, Completed, Some(output), None, now)
      ensures tasks == old(tasks)[id := Succeeded(old(tasks)[id], now, output)]
      ensures results == old(results)[id := r]
    {
      var task := tasks[id];
      r := TaskResult(id, Completed, Some(output), None, now);
      ReplaceTerminal(tasks, order, results, id, Succeeded(task, now, output), r);
      UpdateTwice(tasks, id, Started(task, now), Succeeded(task, now, output));
      tasks := tasks[id := Started(task, now)];
      tasks := tasks[id := Succeeded(task, now, output)];
      results := results[id := r];
    }

    /** The exhausted branch of process_task: the attempt started, the task FAILED with the message, the result stored. */
    method GiveUp(id: string, now: Timestamp, message: string) returns (r: TaskResult)
      requires Valid() && id in tasks && tasks[id].status != Completed
      modifies this`tasks, this`results
      ensures Valid()
      ensures r == TaskResult(id, Failed, None, Some(message), now)
      ensures tasks == old(tasks)[id := GaveUp(old(tasks)[id], now, message)]
      ensures results == old(results)[id := r]
    {
      var task := tasks[id];
      r := TaskResult(id, Failed, None, Some(message), now);
      ReplaceTerminal(tasks, order, results, id, GaveUp(task, now, message), r);
      UpdateTwice(tasks, id, Started(task, now), GaveUp(task, now, message));
      tasks := tasks[id := Started(task, now)];
      tasks := tasks[id := GaveUp(task, now, message)];
      results := results[id := r];
    }

    /** The retry branch of process_task: the attempt started, one more retry counted, the task RETRYING, the wait 2^retry_count recorded. */
    method Reschedule(id: string, now: Timestamp)
      requires Valid() && id in tasks && tasks[id].status != Completed
      requires tasks[id].retryCount < tasks[id].maxRetries
      modifies this`tasks, this`delays
      ensures Valid()
      ensures tasks == old(tasks)[id := Rescheduled(old(tasks)[id], now)]
      ensures delays == old(delays) + [Pow2(old(tasks)[id].retryCount + 1)]
    {
      var task := tasks[id];
      ReplaceNonTerminal(tasks, order, results, id, Rescheduled(task, now));
      UpdateTwice(tasks, id, Started(task, now), Rescheduled(task, now));
      tasks := tasks[id := Started(task, now)];
      tasks := tasks[id := Rescheduled(task, now)];
      var wait := Pow2(task.retryCount + 1);
      delays := delays + [wait];
    }

    /**
      process_task. An unknown id yields the not-found result and changes
      nothing; a COMPLETED task yields its stored result and changes nothing;
      any other task is attempted, see AttemptTask. The final task, result and
      recorded waits are those Retry.Run computes.
     */
    method ProcessTask(id: string, now: Timestamp) returns (r: TaskResult)
      requires Valid()
      modifies this`tasks, this`results, this`delays
      ensures Valid()
      ensures id !in old(tasks) ==>
                r == NotFound(id, now) && tasks == old(tasks) && results == old(results) && delays == old(delays)
      ensures id in old(tasks) && old(tasks)[id].status == Completed ==>
                r == old(results)[id] && tasks == old(tasks) && results == old(results) && delays == old(delays)
      ensures id in old(tasks) && old(tasks)[id].status != Completed ==>
                var o := Run(handlers, id, old(tasks)[id], now);
                && tasks == old(tasks)[id := o.task]
                && results == old(results)[id := o.result]
                && r == o.result
                && delays == old(delays) + o.delays
      decreases if id in tasks then tasks[id].maxRetries - tasks[id].retryCount else 0, 1
    {
      if id !in tasks {
        return NotFound(id, now);
      }
      if tasks[id].status == Completed {
        return results[id];
      }
      r := AttemptTask(id, now);
    }

    /**
      One attempt of process_task on a stored task that is not COMPLETED:
      success completes it, a failure with budget left counts a retry,
      records the wait 2^retry_count and processes the task again, and a
      failure with no budget left fails it.
     */
    method AttemptTask(id: string, now: Timestamp) returns (r: TaskResult)
      requires Valid() && id in tasks && tasks[id].status != Completed
      modifies this`tasks, this`results, this`delays
      ensures Valid()
      ensures var o := Run(handlers, id, old(tasks)[id], now);
              && tasks == old(tasks)[id := o.task]
              && results == old(results)[id := o.result]
              && r == o.result
              && delays == old(delays) + o.delays
      decreases tasks[id].maxRetries - tasks[id].retryCount, 0
    {
      var task := tasks[id];
      match Attempt(handlers, task, task.retryCount) {
        case Success(output) =>
          RunStops(handlers, id, task, now);
          r := Complete(id, now, output);
        case Failure(message) =>
          if task.retryCount < task.maxRetries {
            RunRetries(handlers, id, task, now);
            Reschedule(id, now);
            assert tasks[id] == Rescheduled(task, now);
            ghost var next := Run(handlers, id, tasks[id], now);
            AppendWaits(old(delays), Pow2(task.retryCount + 1), next.delays);
            r := ProcessTask(id, now);
            UpdateTwice(old(tasks), id, Rescheduled(task, now), next.task);
          } else {
            RunStops(handlers, id, task, now);
            r := GiveUp(id, now, message);
          }
      }
    }

    /** get_task_status: the stored task under id, if any. */
    function GetTaskStatus(id: string): (r: Option<Task>)
      reads this
      requires Valid()
      ensures r.Some? <==> id in tasks
      ensures r.Some? ==> r.value == tasks[id]
      ensures r.Some? ==> r.value.id == id && r.value.retryCount <= r.value.maxRetries
      ensures r.Some? && r.value.status == Completed ==>
                GetTaskResult(id).Some? && GetTaskResult(id).value.result == r.value.result
      ensures r.Some? && r.value.status == Failed ==>
                GetTaskResult(id).Some? && GetTaskResult(id).value.error == r.value.error
    {
      if id in tasks then Some(tasks[id]) else None
    }

    /** get_task_result: the stored result under id, if any. */
    function GetTaskResult(id: string): (r: Option<TaskResult>)
      reads this
      requires Valid()
      ensures r.Some? <==> id in results
      ensures r.Some? ==> r.value == results[id]
      ensures r.Some? ==> id in tasks && r.value.taskId == id && IsTerminal(r.value)
      ensures id in tasks && (tasks[id].status == Completed || tasks[id].status == Failed) ==>
                r.Some? && r.value.status == tasks[id].status
    {
      if id in results then Some(results[id]) else None
    }

    /**
      list_tasks: the stored tasks that pass the status filter, as a
      permutation of the store's tasks in store order, sorted by priority
      value, with tasks of equal priority in store order.
     */
    function ListTasks(status: Option<TaskStatus>): (r: seq<Task>)
      reads this
      requires Valid()
      ensures SortedByPriority(r)
      ensures multiset(r) == multiset(Select(Lookup(order, tasks), status))
      ensures forall t :: t in r <==> t in tasks.Values && Matches(t, status)
      ensures forall p :: WithPriority(r, p) == WithPriority(Select(Lookup(order, tasks), status), p)
    {
      ListedMembers(order, tasks, status);
      SortIsStableForAll(Select(Lookup(order, tasks), status));
      SortByPriority(Select(Lookup(order, tasks), status))
    }

    /**
      get_statistics: the total and the five per-status counts, which add up
      to the total and agree with list_tasks, and whether an average execution
      time would be reported (some stored result is COMPLETED).
     */
    function GetStatistics(): (s: Statistics)
      reads this
      requires Valid()
      ensures s.totalTasks == |tasks| == |ListTasks(None)|
      ensures s.pending + s.processing + s.completed + s.failed + s.retrying == s.totalTasks
      ensures s.pending == |ListTasks(Some(Pending))| && s.processing == |ListTasks(Some(Processing))|
      ensures s.completed == |ListTasks(Some(Completed))| && s.failed == |ListTasks(Some(Failed))|
      ensures s.retrying == |ListTasks(Some(Retrying))|
      ensures s.hasAverageExecutionTime <==> exists k :: k in results && results[k].status == Completed
      ensures s.completed > 0 ==> s.hasAverageExecutionTime
    {
      var all := Lookup(order, tasks);
      StatusCountsPartition(all);
      CountsAgreeWithListing(all);
      CompletedHasResult(tasks, order, results);
      Statistics(
        |all|,
        CountStatus(all, Pending),
        CountStatus(all, Processing),
        CountStatus(all, Completed),
        CountStatus(all, Failed),
        CountStatus(all, Retrying),
        exists k :: k in results && results[k].status == Completed)
    }
  }
}
