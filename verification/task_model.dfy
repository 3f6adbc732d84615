/**
  The value types of the task engine: task statuses and priorities, the task
  record, the terminal result record, and the handler contract.

  Payloads and handler outputs are string-keyed dictionaries; their values are
  never inspected by the engine, so they are represented as strings here.
  Timestamps are opaque values supplied by the caller.
 */
module TaskModel {

  datatype Option<+T> = None | Some(value: T)

  type Dict = map<string, string>
  type Timestamp = string

  /** The lifecycle states of a task. */
  datatype TaskStatus = Pending | Processing | Completed | Failed | Retrying

  /** Priority levels; only used as the sort key when listing tasks. */
  datatype TaskPriority = Low | Medium | High

  /** The numeric value carried by each priority: HIGH=1, MEDIUM=2, LOW=3. */
  function PriorityValue(p: TaskPriority): (v: nat)
    ensures 1 <= v <= 3
    ensures (p == High <==> v == 1) && (p == Medium <==> v == 2) && (p == Low <==> v == 3)
  {
    match p
    case Low => 3
    case Medium => 2
    case High => 1
  }

  /** The retry budget every task is created with. */
  const DefaultMaxRetries: nat := 3

  /** One unit of work and its lifecycle bookkeeping. */
  datatype Task = Task(
    id: string,
    name: string,
    payload: Dict,
    priority: TaskPriority,
    status: TaskStatus,
    createdAt: Timestamp,
    startedAt: Option<Timestamp>,
    completedAt: Option<Timestamp>,
    result: Option<Dict>,
    error: Option<string>,
    retryCount: nat,
    maxRetries: nat)

  /** A task as the record's defaults build it: pending, untouched, budget 3. */
  function NewTask(id: string, name: string, payload: Dict, priority: TaskPriority, createdAt: Timestamp): (t: Task)
    ensures t.id == id && t.name == name && t.payload == payload && t.priority == priority
    ensures t.status == Pending && t.retryCount == 0 && t.maxRetries == DefaultMaxRetries
    ensures t.retryCount <= t.maxRetries
    ensures t.startedAt.None? && t.completedAt.None? && t.result.None? && t.error.None?
  {
    Task(id, name, payload, priority, Pending, createdAt, None, None, None, None, 0, DefaultMaxRetries)
  }

  /** The outcome of one processing attempt sequence. */
  datatype TaskResult = TaskResult(
    taskId: string,
    status: TaskStatus,
    result: Option<Dict>,
    error: Option<string>,
    completedAt: Timestamp)

  /** A result is terminal: COMPLETED with an output and no error, or FAILED with an error and no output. */
  predicate IsTerminal(r: TaskResult) {
    || (r.status == Completed && r.result.Some? && r.error.None?)
    || (r.status == Failed && r.result.None? && r.error.Some?)
  }

  const NotFoundMessage: string := "Tarefa não encontrada"

  /** The synthetic result returned for an id that is not in the task store. */
  function NotFound(id: string, now: Timestamp): (r: TaskResult)
    ensures r.taskId == id && r.status == Failed && IsTerminal(r)
    ensures r.error == Some(NotFoundMessage)
  {
    TaskResult(id, Failed, None, Some(NotFoundMessage), now)
  }

  /** What a handler call yields: an output dictionary or the message of the exception it raised. */
  datatype HandlerOutcome = Success(output: Dict) | Failure(message: string)

  /**
    A handler maps a payload to an outcome. Handlers may behave differently on
    successive calls (they talk to the outside world); the second argument, the
    task's retry count at the time of the call, stands for that outside state.
   */
  type Handler = (Dict, nat) -> HandlerOutcome

  function MissingHandlerMessage(name: string): string {
    "Handler não encontrado para tipo: " + name
  }

  /** Looks the handler up by task name and runs it; a missing handler is a failure. */
  function Invoke(handlers: map<string, Handler>, name: string, payload: Dict, attempt: nat): HandlerOutcome
  {
    if name in handlers then handlers[name](payload, attempt)
    else Failure(MissingHandlerMessage(name))
  }

  datatype Error = InvalidArgument(message: string)

  datatype Result<+T> = Ok(value: T) | Err(error: Error)
}
