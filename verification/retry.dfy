/**
  The retry policy of process_task, stated as a pure recursive function that
  follows the source's own self-recursion: one attempt, then COMPLETED, or a
  backoff of 2^retry_count seconds and another attempt, or FAILED once the
  retry budget is spent. TaskProcessor.ProcessTask is proved to compute it.
 */
module Retry {
  import opened TaskModel

  /** 2 raised to the n-th power, as Python's `2 ** n`. */
  function Pow2(n: nat): (r: nat)
    ensures r >= 1
  {
    if n == 0 then 1 else 2 * Pow2(n - 1)
  }

  /** The waits, in seconds, before retries 1, 2, ..., n: 2, 4, ..., 2^n. */
  function Backoff(n: nat): (s: seq<nat>)
    ensures |s| == n
  {
    seq(n, i requires 0 <= i < n => Pow2(i + 1))
  }

  /** The total of a sequence of waits. */
  function Sum(s: seq<nat>): nat
  {
    if s == [] then 0 else Sum(s[..|s| - 1]) + s[|s| - 1]
  }

  /** What one call of process_task on a stored task leaves behind. */
  datatype Processed = Processed(task: Task, result: TaskResult, delays: seq<nat>)

  /** The handler outcome of the attempt made at retry count k. */
  function Attempt(handlers: map<string, Handler>, t: Task, k: nat): HandlerOutcome
  {
    Invoke(handlers, t.name, t.payload, k)
  }

  /** The fields processing never touches. */
  predicate SameTask(a: Task, b: Task)
  {
    && a.id == b.id && a.name == b.name && a.payload == b.payload
    && a.priority == b.priority && a.createdAt == b.createdAt && a.maxRetries == b.maxRetries
  }

  /** The task as an attempt begins: PROCESSING, with a fresh start stamp. */
  function Started(t: Task, now: Timestamp): Task
  {
    t.(status := Processing, startedAt := Some(now))
  }

  /** The task after a failed attempt that still has budget: one more retry counted, RETRYING. */
  function Rescheduled(t: Task, now: Timestamp): Task
  {
    Started(t, now).(retryCount := t.retryCount + 1, status := Retrying)
  }

  /** The task after a successful attempt: COMPLETED, holding the handler's output. */
  function Succeeded(t: Task, now: Timestamp, output: Dict): Task
  {
    Started(t, now).(status := Completed, completedAt := Some(now), result := Some(output))
  }

  /** The task after a failed attempt with no budget left: FAILED, holding the failure message. */
  function GaveUp(t: Task, now: Timestamp, message: string): Task
  {
    Started(t, now).(status := Failed, error := Some(message), completedAt := Some(now))
  }

  /**
    process_task on a task that is in the store and not COMPLETED: the final
    task, the result returned and stored, and the waits slept, in order. What
    every run leaves behind is stated by RunOutcome.
   */
  function Run(handlers: map<string, Handler>, id: string, t: Task, now: Timestamp): Processed
    requires t.retryCount <= t.maxRetries
    decreases t.maxRetries - t.retryCount
  {
    match Attempt(handlers, t, t.retryCount)
    case Success(output) =>
      Processed(Succeeded(t, now, output),
                TaskResult(id, Completed, Some(output), None, now),
                [])
    case Failure(message) =>
      if t.retryCount < t.maxRetries then
        var next := Rescheduled(t, now);
        var rest := Run(handlers, id, next, now);
        Processed(rest.task, rest.result, [Pow2(next.retryCount)] + rest.delays)
      else
        Processed(GaveUp(t, now, message),
                  TaskResult(id, Failed, None, Some(message), now),
                  [])
  }

  /**
    What every run leaves behind: the final task ends COMPLETED or FAILED,
    keeps its identity and stays within budget, and records one wait of 2^c
    seconds for every retry count c it passes through; the result is
    terminal and agrees with the final task.
   */
  lemma {:induction false} RunOutcome(handlers: map<string, Handler>, id: string, t: Task, now: Timestamp)
    requires t.retryCount <= t.maxRetries
    ensures var o := Run(handlers, id, t, now);
            && (o.task.status == Completed || o.task.status == Failed)
            && SameTask(o.task, t)
            && t.retryCount <= o.task.retryCount <= o.task.maxRetries
            && (o.task.status == Failed ==> o.task.retryCount == t.maxRetries)
            && o.task.startedAt == Some(now) && o.task.completedAt == Some(now)
            && |o.delays| == o.task.retryCount - t.retryCount
            && (forall i :: 0 <= i < |o.delays| ==> o.delays[i] == Pow2(t.retryCount + i + 1))
            && o.result.taskId == id && o.result.status == o.task.status && o.result.completedAt == now
            && IsTerminal(o.result)
            && (o.task.status == Completed ==> o.task.result == o.result.result && o.task.error == t.error)
            && (o.task.status == Failed ==> o.task.error == o.result.error && o.task.result == t.result)
    decreases t.maxRetries - t.retryCount
  {
    if Attempt(handlers, t, t.retryCount).Failure? && t.retryCount < t.maxRetries {
      RunOutcome(handlers, id, Rescheduled(t, now), now);
    }
  }

  /** A failed attempt with budget left: the rest of the run is the run of the rescheduled task, after one wait of 2^(retry_count + 1). */
  lemma RunRetries(handlers: map<string, Handler>, id: string, t: Task, now: Timestamp)
    requires t.retryCount < t.maxRetries && Attempt(handlers, t, t.retryCount).Failure?
    ensures var o, rest := Run(handlers, id, t, now), Run(handlers, id, Rescheduled(t, now), now);
            && o.task == rest.task && o.result == rest.result
            && o.delays == [Pow2(t.retryCount + 1)] + rest.delays
  {
  }

  /** The attempt that ends the run: a success, or a failure with the budget spent. */
  lemma RunStops(handlers: map<string, Handler>, id: string, t: Task, now: Timestamp)
    requires t.retryCount <= t.maxRetries
    requires Attempt(handlers, t, t.retryCount).Success? || t.retryCount == t.maxRetries
    ensures var o := Run(handlers, id, t, now);
            && o.delays == []
            && (Attempt(handlers, t, t.retryCount).Success? ==>
                 var output := Attempt(handlers, t, t.retryCount).output;
                 o.task == Succeeded(t, now, output)
                 && o.result == TaskResult(id, Completed, Some(output), None, now))
            && (Attempt(handlers, t, t.retryCount).Failure? ==>
                 var message := Attempt(handlers, t, t.retryCount).message;
                 o.task == GaveUp(t, now, message)
                 && o.result == TaskResult(id, Failed, None, Some(message), now))
  {
  }

  /**
    Every attempt before the last one failed; the last one decides: its output
    becomes the task's result, or its message becomes the task's error.
   */
  lemma {:induction false} RunFollowsAttempts(handlers: map<string, Handler>, id: string, t: Task, now: Timestamp)
    requires t.retryCount <= t.maxRetries
    ensures var o := Run(handlers, id, t, now);
            && (forall k :: t.retryCount <= k < o.task.retryCount ==> Attempt(handlers, t, k).Failure?)
            && (o.task.status == Completed ==>
                  Attempt(handlers, t, o.task.retryCount).Success? &&
                  o.task.result == Some(Attempt(handlers, t, o.task.retryCount).output))
            && (o.task.status == Failed ==>
                  Attempt(handlers, t, o.task.retryCount).Failure? &&
                  o.task.error == Some(Attempt(handlers, t, o.task.retryCount).message))
    decreases t.maxRetries - t.retryCount
  {
    if Attempt(handlers, t, t.retryCount).Failure? && t.retryCount < t.maxRetries {
      var next := Rescheduled(t, now);
      RunFollowsAttempts(handlers, id, next, now);
      assert forall k :: Attempt(handlers, next, k) == Attempt(handlers, t, k);
    }
  }

  /** A task completes exactly when some attempt within its budget succeeds. */
  lemma CompletedIffSomeAttemptSucceeds(handlers: map<string, Handler>, id: string, t: Task, now: Timestamp)
    requires t.retryCount <= t.maxRetries
    ensures Run(handlers, id, t, now).task.status == Completed <==>
            exists k :: t.retryCount <= k <= t.maxRetries && Attempt(handlers, t, k).Success?
  {
    RunOutcome(handlers, id, t, now);
    RunFollowsAttempts(handlers, id, t, now);
  }

  /**
    A fresh task whose handler fails on every attempt ends FAILED with its
    whole budget used, the last failure as its error, and the waits
    2, 4, ..., 2^max_retries recorded in order.
   */
  lemma AlwaysFailingExhaustsBudget(handlers: map<string, Handler>, id: string, t: Task, now: Timestamp)
    requires t.retryCount == 0
    requires forall k :: 0 <= k <= t.maxRetries ==> Attempt(handlers, t, k).Failure?
    ensures var o := Run(handlers, id, t, now);
            && o.task.status == Failed
            && o.task.retryCount == t.maxRetries
            && o.task.error == Some(Attempt(handlers, t, t.maxRetries).message)
            && o.result == TaskResult(id, Failed, None, o.task.error, now)
            && o.delays == Backoff(t.maxRetries)
  {
    RunOutcome(handlers, id, t, now);
    CompletedIffSomeAttemptSucceeds(handlers, id, t, now);
    RunFollowsAttempts(handlers, id, t, now);
  }

  /**
    A task whose name has no registered handler fails every attempt with the
    missing-handler message, so a fresh one ends FAILED after the whole
    backoff sequence.
   */
  lemma MissingHandlerExhaustsBudget(handlers: map<string, Handler>, id: string, t: Task, now: Timestamp)
    requires t.retryCount == 0 && t.name !in handlers
    ensures var o := Run(handlers, id, t, now);
            && o.task.status == Failed
            && o.task.retryCount == t.maxRetries
            && o.task.error == Some(MissingHandlerMessage(t.name))
            && o.result == TaskResult(id, Failed, None, Some(MissingHandlerMessage(t.name)), now)
            && o.delays == Backoff(t.maxRetries)
  {
    AlwaysFailingExhaustsBudget(handlers, id, t, now);
  }

  /** The waits before retries 1..n add up to 2^(n+1) - 2 seconds (6 for two retries, 14 for three). */
  lemma {:induction false} BackoffTotal(n: nat)
    ensures Sum(Backoff(n)) == Pow2(n + 1) - 2
  {
    if n > 0 {
      BackoffTotal(n - 1);
      assert Backoff(n)[..n - 1] == Backoff(n - 1);
    }
  }
}
