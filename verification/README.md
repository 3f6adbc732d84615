# Task queue engine: a Dafny model of `TaskProcessor`

This project models the in-memory task engine in `worker.py`. The engine is
`TaskProcessor`, and it keeps three dictionaries:

- a task store keyed by task id;
- a result store keyed by task id;
- a handler registry keyed by task name.

Clients create tasks and process them one at a time. Processing looks up the
handler for the task's name and runs it on the payload. Success marks the
task COMPLETED and stores its result. A failure with retry budget left counts
one more retry, marks the task RETRYING, sleeps `2 ** retry_count` seconds and
processes the task again. A failure with no budget left marks the task FAILED
and stores the error. Queries return a task, a result, the task list filtered
by status and sorted by priority value (HIGH=1 first, LOW=3 last), and
per-status counts.

The files:

- `task_model.dfy` (module `TaskModel`) holds the value types. These are the
  statuses, priorities, the task record, the result record and the handler
  contract.
- `retry.dfy` (module `Retry`) holds `Run`, a pure recursive function. It
  states what one call of `process_task` does to a stored task that is not
  COMPLETED. The lemmas about it cover the final status, the retry budget,
  which attempt decides the outcome, and the backoff waits 2, 4, …, 2^n.
- `listing.dfy` (module `Listing`) holds the pure queries. They are the
  status filter, the stable sort by priority value, and the per-status counts.
- `processor.dfy` (module `Processor`) holds the class `TaskProcessor`. Its
  fields are the task store, the result store, the handler registry and the
  order of the stored ids. Its methods update those fields in place, as the
  source does.

## How the source is modelled

- **Handlers.** A handler is a function `(Dict, nat) -> HandlerOutcome`. The
  source's handlers talk to the outside world, so one handler may succeed on
  one call and fail on the next. The second argument is the task's retry
  count at the moment of the call, and it stands for that outside state
  within one run of retries. Across separate `process_task` calls the same
  payload and retry count give the same outcome (see "## Left out"). A
  handler that raises becomes `Failure(message)`. A task name with no
  registered handler is a failure with the message
  `Handler não encontrado para tipo: <name>` (`worker.py:252-255`).
- **Waits.** `time.sleep(wait_time)` becomes an append to the ghost field
  `delays`. `ProcessTask` is proved to append exactly the waits that `Run`
  computes.
- **Timestamps.** Clock readings are one opaque `now` per call. Creation time
  and task ids are inputs of `CreateTask`.
- **Store order.** `order` records the insertion order of the task ids. This
  is the order in which a Python dict iterates its values. Replacing a task
  under an existing id keeps that id's place, and a new id goes last.
- **Recursion.** `process_task` calls itself after a failed attempt that
  still has budget. `ProcessTask` does the same through `AttemptTask`, so the
  recursion is on the store and not on a copy. The three branches of an
  attempt (`Complete`, `Reschedule`, `GiveUp`) are small methods that make
  the source's field writes in the source's order.
- **Store invariant.** `Valid()` holds after every operation:
  - the order lists exactly the stored ids;
  - every task is stored under its own id, with `retry_count <= max_retries`;
  - every stored result belongs to a stored task and is terminal;
  - every COMPLETED task has a matching COMPLETED result, and every FAILED
    task has a matching FAILED result.

  With this invariant, the early return for a COMPLETED task always finds a
  stored result.

Behaviour of the code that the model keeps, where it may surprise a reader:

- Every attempt overwrites `started_at` (`worker.py:246-247`), including the
  retries. The first start time is not kept.
- Processing a FAILED task tries again. The retry count is already at the
  maximum, so one failure fails it again at once.
- A success does not clear an earlier `error`. A FAILED task that is
  processed again and succeeds ends COMPLETED and still carries the old error
  (`Retry.RunOutcome`: a completed task keeps its previous error). In the
  model such a second run can succeed only after `RegisterHandler` has
  replaced the task's handler.
- `create_task` with an id that is already stored replaces the task. It does
  not remove that id's stored result, so `get_task_result` can return a
  result for the new, PENDING task, and `get_statistics` still counts that
  result toward the average.

## Model

| member | source | states |
|---|---|---|
| TaskModel.PriorityValue | worker.py:65-69 | The sort key of each priority is its value, HIGH=1, MEDIUM=2, LOW=3, each value belonging to exactly one priority. |
| TaskModel.NewTask | worker.py:204-209 | A new task has the given id, name, payload and priority. It is PENDING, with retry count 0 within a budget of 3, and no start time, end time, result or error. |
| TaskModel.NotFound | worker.py:228-234 | The result for an unknown id is FAILED, carries that id and has the error "Tarefa não encontrada". |
| Retry.RunOutcome | worker.py:243-322 | Every run ends COMPLETED or FAILED, with the id, name, payload, priority and budget unchanged and the retry count within budget. FAILED means the budget was spent. One wait of 2^(c+1) is recorded per retry, from retry count c. The returned result is terminal, carries the id and agrees with the final task. |
| Retry.RunFollowsAttempts | worker.py:250-322 | Every attempt before the last failed. A COMPLETED task holds the output of the last attempt, and a FAILED task holds the message of its last failure. |
| Retry.CompletedIffSomeAttemptSucceeds | worker.py:250-322 | A run ends COMPLETED exactly when some attempt within the remaining budget succeeds. |
| Retry.AlwaysFailingExhaustsBudget | worker.py:289-322 | A fresh task whose every attempt fails ends FAILED with retry_count == max_retries and the last message as its error, after waiting 2, 4, …, 2^max_retries in that order. |
| Retry.MissingHandlerExhaustsBudget | worker.py:252-255 | A fresh task with no registered handler ends FAILED with the missing-handler message, after the full backoff sequence. |
| Retry.BackoffTotal | worker.py:294-300 | The waits before retries 1..n add up to 2^(n+1) - 2 seconds. |
| Listing.LookupMembers | worker.py:469 | The stored tasks in id order are exactly the store's values. |
| Listing.Insert | worker.py:474 | Insertion adds exactly one occurrence of the task (as a multiset). |
| Listing.InsertKeepsSorted | worker.py:474 | Inserting into a list sorted by priority value keeps it sorted. |
| Listing.SortByPriority | worker.py:474 | The sort is a permutation of its input, and it is non-decreasing by priority value. |
| Listing.SelectMembers | worker.py:471-472 | A task passes the filter exactly when it is in the input and, if a status is given, has that status. |
| Listing.SelectAll | worker.py:471 | Without a status the filter keeps every task, in order. |
| Listing.InsertIsStable | worker.py:474 | Inserting a task changes the subsequence of one priority only by appending that task, when the task has that priority. |
| Listing.SortIsStable | worker.py:474 | Sorting keeps the tasks of each priority in their input order, as Python's stable `sorted` does. |
| Listing.SortIsStableForAll | worker.py:474 | The same stability, for every priority at once. |
| Listing.ListedMembers | worker.py:469-474 | A task is listed exactly when it is stored and passes the status filter. |
| Listing.CountsAgreeWithListing | worker.py:483-491 | Each per-status count equals the length of the list `list_tasks` returns for that status, and the total equals the length of the unfiltered list. |
| Listing.StatusCountsPartition | worker.py:485-491 | The five per-status counts add up to the number of tasks. |
| Processor.CompletedHasResult | worker.py:494-502 | If some stored task is COMPLETED, then some stored result is COMPLETED. |
| Processor.TaskProcessor.constructor | worker.py:142-153 | A new engine has empty task and result stores and registers exactly the five built-in task names. |
| Processor.TaskProcessor.RegisterHandler | worker.py:155-174 | An empty name is rejected with "task_name e handler devem ser válidos" and nothing changes. Otherwise the handler is registered under the name, replacing any earlier one. |
| Processor.TaskProcessor.CreateTask | worker.py:176-213 | An empty name is rejected with "name e payload devem ser válidos" and nothing changes. Otherwise a new PENDING task is stored under the id, replacing any task there. A new id goes last in the store order and a reused id keeps its place. The invariant is kept. |
| Processor.TaskProcessor.ProcessTask | worker.py:216-241 | For an unknown id: the not-found result, nothing changes. For a COMPLETED task: its stored result, nothing changes. Otherwise the stored task, the stored result, the returned result and the recorded waits are those of `Run`. The invariant is kept. |
| Processor.TaskProcessor.AttemptTask | worker.py:243-322 | One attempt on a stored task that is not COMPLETED, followed by the recursive call when it retries, leaves the task, result and waits that `Run` computes. The invariant is kept. |
| Processor.TaskProcessor.Complete | worker.py:245-281 | The success branch stores the task as started and then COMPLETED with the output, stores the COMPLETED result, and keeps the invariant. |
| Processor.TaskProcessor.Reschedule | worker.py:289-300 | The retry branch stores the task as started and then RETRYING with one more retry counted, records the wait 2^(new retry count), and keeps the invariant. |
| Processor.TaskProcessor.GiveUp | worker.py:302-322 | The exhausted branch stores the task as started and then FAILED with the message, stores the FAILED result, and keeps the invariant. |
| Processor.TaskProcessor.GetTaskStatus | worker.py:435-445 | Returns the stored task exactly when the id is stored, and that task carries the id. A COMPLETED task has a stored result with the same output, and a FAILED task has one with the same error. |
| Processor.TaskProcessor.GetTaskResult | worker.py:447-457 | Returns the stored result exactly when one is stored under the id, including a stale one left by a re-created task. Any result returned is terminal and belongs to a stored task with that id. A stored task that is COMPLETED or FAILED has a result with that status. |
| Processor.TaskProcessor.ListTasks | worker.py:459-474 | The list is sorted by priority value and is a permutation of the filtered stored tasks. It holds exactly the stored tasks that pass the filter, and keeps store order within each priority. |
| Processor.TaskProcessor.GetStatistics | worker.py:476-502 | The total is the number of stored tasks. The five counts add up to it, and each equals the length of `list_tasks` for that status. The average is reported exactly when some stored result is COMPLETED, and always when some task is COMPLETED. |

## Left out

- Logging (`worker.py:31-49` and every `logger` call) is left out. It has no
  effect on the state.
- Clock readings (`datetime.utcnow()`, `time.time()`) are not modelled. Every
  timestamp is an opaque `now` or `createdAt` input.
- `time.sleep` is not performed. Each wait is recorded in the ghost field
  `delays` instead.
- `execution_time` is left out. It is a float difference of clock readings,
  so `TaskResult` has no `execution_time` field.
- Processor.TaskProcessor.GetStatistics: the `average_execution_time` value
  is a float mean of execution times, so only whether the key is present is
  modelled.
- Processor.TaskProcessor.CreateTask: the source's `priority` argument
  defaults to MEDIUM; the model takes the priority as a required argument.
- Generated task ids (`task_<milliseconds>`, `worker.py:202`) come from the
  clock. The id is always an input of `CreateTask`.
- The bodies of the five built-in handlers (`worker.py:328-429`) are left
  out. The constructor takes them as handler parameters.
- The `callable(handler)` check of `register_handler` and the
  `isinstance(payload, dict)` check of `create_task` are type checks. The
  Dafny types already guarantee them.
- The payload and output dictionaries hold arbitrary Python values. They are
  modelled as string-to-string maps, since the engine never inspects them.
- TaskModel.Invoke: the source calls a handler with the payload only. The
  model adds the retry count as a second argument, to stand for the outside
  state that lets successive calls differ. Outcomes are therefore the same
  for the same name, payload and retry count across separate `process_task`
  calls: re-processing a FAILED task with unchanged handlers fails again,
  where the source's handler might now succeed.
- The source returns the stored `Task` object itself. Callers that mutate it
  mutate the store. Here a task is a value, so this aliasing is not modelled.
- The demo in `main` (`worker.py:511-609`) is left out. So are exceptions
  other than those raised by a handler, and concurrency, which the source
  does not have.
