/**
 * Task registration types of the job queue and the retry contract their
 * documentation states: a task's `retries` is a bare number or a
 * `RetryConfig`, whose optional backoff is `fixed` (the same wait before
 * every retry) or `exponential` (the wait doubles on every retry), and a
 * workflow waits for the longest backoff among its tasks.
 */
module TaskTypes {
  import opened Wrappers

  datatype TaskState = Failed | Succeeded

  datatype BackoffType = Exponential | Fixed

  /** `backoff?: { delay?: number, type }`; a missing type reads as `fixed`. */
  datatype Backoff = Backoff(delay: Option<nat>, backoffType: Option<BackoffType>)

  datatype RetryConfig = RetryConfig(attempts: nat, backoff: Option<Backoff>)

  /** `retries?: number | RetryConfig` */
  datatype Retries = RetryCount(count: nat) | Policy(config: RetryConfig)

  /** A handler is given either as a path to the file that exports it or as the function itself. */
  datatype Handler = HandlerPath(path: string) | HandlerFunction(id: nat)

  /** A callback (`onFail`, `onSuccess`) the model never calls. */
  datatype Callback = Callback(id: nat)

  datatype TaskConfig = TaskConfig(
    slug: string,
    handler: Handler,
    inputSchema: Option<seq<Json>>,
    outputSchema: Option<seq<Json>>,
    taskLabel: Option<string>,   // `label`
    onFail: Option<Callback>,
    onSuccess: Option<Callback>,
    retries: Option<Retries>)

  /** What a handler returns: its output and, optionally, the state it reports. */
  datatype TaskHandlerResult = TaskHandlerResult(output: Json, state: Option<TaskState>)

  /** One entry of a job's execution log. */
  datatype JobLog = JobLog(
    executedAt: nat,
    completedAt: nat,
    taskSlug: string,
    taskID: string,
    input: Option<Json>,
    output: Option<Json>,
    state: TaskState,
    error: Option<Json>)

  /** A job-log entry whose `input` and `output` are the task's typed input and output. */
  datatype SavedTaskResult = SavedTaskResult(
    input: Json,
    output: Json,
    executedAt: nat,
    completedAt: nat,
    taskSlug: string,
    taskID: string,
    state: TaskState,
    error: Option<Json>)

  // ---------------------------------------------------------------------
  // SavedTaskResult = { input, output } & Omit<JobLog, 'input' | 'output'>
  // ---------------------------------------------------------------------

  /** Keeps every job-log field except `input` and `output`, which become the typed ones. */
  function SaveResult(entry: JobLog, input: Json, output: Json): (r: SavedTaskResult)
    ensures AsJobLog(r) == entry.(input := Some(input), output := Some(output))
  {
    SavedTaskResult(input, output, entry.executedAt, entry.completedAt,
                    entry.taskSlug, entry.taskID, entry.state, entry.error)
  }

  /** A saved result read back as a job-log entry. */
  function AsJobLog(r: SavedTaskResult): (entry: JobLog)
    ensures entry.input == Some(r.input) && entry.output == Some(r.output)
  {
    JobLog(r.executedAt, r.completedAt, r.taskSlug, r.taskID,
           Some(r.input), Some(r.output), r.state, r.error)
  }

  lemma SavedResultRoundTrip(r: SavedTaskResult)
    ensures SaveResult(AsJobLog(r), r.input, r.output) == r
  {
  }

  // ---------------------------------------------------------------------
  // Backoff schedule
  // ---------------------------------------------------------------------

  /** Retries are numbered from 1. */
  type RetryNumber = k: nat | k >= 1 witness 1

  function Pow2(n: nat): (r: nat)
    ensures r >= 1
  {
    if n == 0 then 1 else 2 * Pow2(n - 1)
  }

  /**
   * The wait before retry `k` under `backoff`. The base delay is `delay`, or
   * `defaultDelay` when the configuration leaves it out (the documentation
   * names no default); the type is `fixed` when it is left out.
   */
  function BackoffDelay(backoff: Backoff, k: RetryNumber, defaultDelay: nat): (wait: nat) {
    var base := backoff.delay.GetOr(defaultDelay);
    match backoff.backoffType.GetOr(Fixed)
    case Fixed => base
    case Exponential => base * Pow2(k - 1)
  }

  /** The wait before retry `k` of a task; with no backoff configured there is no wait. */
  function RetryWait(retries: Retries, k: RetryNumber, defaultDelay: nat): (wait: nat) {
    match retries
    case RetryCount(_) => 0
    case Policy(config) =>
      match config.backoff
      case None => 0
      case Some(backoff) => BackoffDelay(backoff, k, defaultDelay)
  }

  /** How many times a task is retried. */
  function Attempts(retries: Retries): nat {
    match retries
    case RetryCount(n) => n
    case Policy(config) => config.attempts
  }

  /** The waits before retries 1, 2, ..., attempts, in order. */
  function Schedule(retries: Retries, defaultDelay: nat): (s: seq<nat>)
    ensures |s| == Attempts(retries)
    ensures forall i :: 0 <= i < |s| ==> s[i] == RetryWait(retries, i + 1, defaultDelay)
  {
    seq(Attempts(retries), i requires 0 <= i => RetryWait(retries, i + 1, defaultDelay))
  }

  /** A backoff whose type is left out behaves as `fixed`. */
  lemma MissingTypeIsFixed(backoff: Backoff, k: RetryNumber, defaultDelay: nat)
    requires backoff.backoffType.None?
    ensures BackoffDelay(backoff, k, defaultDelay)
         == BackoffDelay(backoff.(backoffType := Some(Fixed)), k, defaultDelay)
  {
  }

  /** Fixed backoff: every retry waits the base delay. */
  lemma {:induction false} FixedScheduleIsConstant(config: RetryConfig, defaultDelay: nat)
    requires config.backoff.Some? && config.backoff.value.backoffType != Some(Exponential)
    ensures var s := Schedule(Policy(config), defaultDelay);
            forall i :: 0 <= i < |s| ==> s[i] == config.backoff.value.delay.GetOr(defaultDelay)
  {
    var s := Schedule(Policy(config), defaultDelay);
    forall i | 0 <= i < |s|
      ensures s[i] == config.backoff.value.delay.GetOr(defaultDelay)
    {
      assert config.backoff.value.backoffType.GetOr(Fixed) == Fixed;
    }
  }

  /** Exponential backoff: the first retry waits the base delay and each later one twice the one before. */
  lemma {:induction false} ExponentialScheduleDoubles(config: RetryConfig, defaultDelay: nat)
    requires config.backoff.Some? && config.backoff.value.backoffType == Some(Exponential)
    ensures var s := Schedule(Policy(config), defaultDelay);
            && (|s| > 0 ==> s[0] == config.backoff.value.delay.GetOr(defaultDelay))
            && forall i :: 0 <= i < |s| - 1 ==> s[i + 1] == 2 * s[i]
  {
    var s := Schedule(Policy(config), defaultDelay);
    var base := config.backoff.value.delay.GetOr(defaultDelay);
    forall i | 0 <= i < |s| - 1
      ensures s[i + 1] == 2 * s[i]
    {
      calc {
        s[i + 1];
        base * Pow2(i + 1);
        base * (2 * Pow2(i));
        2 * (base * Pow2(i));
        2 * s[i];
      }
    }
  }

  /** delay = 1000, attempts = 3, type = 'fixed': three retries, 1000 ms before each. */
  lemma FixedExample(defaultDelay: nat)
    ensures Schedule(Policy(RetryConfig(3, Some(Backoff(Some(1000), Some(Fixed))))), defaultDelay)
         == [1000, 1000, 1000]
  {
    var s := Schedule(Policy(RetryConfig(3, Some(Backoff(Some(1000), Some(Fixed))))), defaultDelay);
    assert |s| == 3;
  }

  /** delay = 1000, attempts = 3, type = 'exponential': waits of 1000, 2000 and 4000 ms. */
  lemma ExponentialExample(defaultDelay: nat)
    ensures Schedule(Policy(RetryConfig(3, Some(Backoff(Some(1000), Some(Exponential))))), defaultDelay)
         == [1000, 2000, 4000]
  {
    var s := Schedule(Policy(RetryConfig(3, Some(Backoff(Some(1000), Some(Exponential))))), defaultDelay);
    assert Pow2(2) == 4;
    assert |s| == 3;
  }

  // ---------------------------------------------------------------------
  // Workflow-level backoff: the longest task backoff governs
  // ---------------------------------------------------------------------

  /**
   * The wait before a workflow is retried, given the waits of its tasks:
   * the longest of them, and no wait at all when no task asks for one.
   */
  function WorkflowWait(taskWaits: seq<nat>): (r: Option<nat>)
    ensures r.None? <==> taskWaits == []
    ensures r.Some? ==> forall i :: 0 <= i < |taskWaits| ==> taskWaits[i] <= r.value
    ensures r.Some? ==> r.value in taskWaits
  {
    if taskWaits == [] then None
    else match WorkflowWait(taskWaits[1..])
      case None => Some(taskWaits[0])
      case Some(m) => Some(if taskWaits[0] >= m then taskWaits[0] else m)
  }

  /** A task of a workflow that failed, with its retry settings and the number of its next retry. */
  datatype FailedTask = FailedTask(retries: Retries, nextRetry: RetryNumber)

  function TaskWaits(failed: seq<FailedTask>, defaultDelay: nat): (waits: seq<nat>)
    ensures |waits| == |failed|
    ensures forall i :: 0 <= i < |failed| ==>
              waits[i] == RetryWait(failed[i].retries, failed[i].nextRetry, defaultDelay)
  {
    seq(|failed|, i requires 0 <= i < |failed| =>
      RetryWait(failed[i].retries, failed[i].nextRetry, defaultDelay))
  }

  /** One slow-to-retry task makes the whole workflow wait at least as long as it does. */
  lemma WorkflowWaitsForSlowestTask(failed: seq<FailedTask>, defaultDelay: nat, i: nat)
    requires i < |failed|
    ensures var w := WorkflowWait(TaskWaits(failed, defaultDelay));
            && w.Some?
            && RetryWait(failed[i].retries, failed[i].nextRetry, defaultDelay) <= w.value
            && exists j :: 0 <= j < |failed| &&
                 w.value == RetryWait(failed[j].retries, failed[j].nextRetry, defaultDelay)
  {
    var waits := TaskWaits(failed, defaultDelay);
    var w := WorkflowWait(waits);
    var j :| 0 <= j < |waits| && waits[j] == w.value;
  }

  // ---------------------------------------------------------------------
  // Slug uniqueness
  // ---------------------------------------------------------------------

  /** "This slug needs to be unique among both tasks and workflows." */
  ghost predicate SlugsUnique(tasks: seq<TaskConfig>, workflowSlugs: seq<string>) {
    && (forall i, j :: 0 <= i < j < |tasks| ==> tasks[i].slug != tasks[j].slug)
    && (forall i :: 0 <= i < |tasks| ==> tasks[i].slug !in workflowSlugs)
  }
}
