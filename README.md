# Payload job-queue configuration, search plugin and server-function dispatch, in Dafny

This project models four small pieces of configuration logic from the Payload CMS repository and proves what they promise.

- **The `payload-jobs` collection builder** (`getDefaultJobsCollection`). With no workflows array configured it builds nothing. Otherwise it collects three JavaScript `Set`s: the workflow slugs, the task slugs (seeded with `inline`) and the queue names (seeded with `default`). It throws when a task reuses a workflow's slug. It then declares the job document's fields: defaults for a new job, the collected names as select options, the log entry's fields, and the virtual `taskStatus` field. The collection's `afterRead` hook overwrites `taskStatus` in place with a value computed from the job's `log`.
- **The task retry types** (`RetryConfig`, `TaskConfig`, `TaskHandlerResult`, `SavedTaskResult`). A task's `retries` is a bare number or a `RetryConfig`. The documented backoff schedule is constant for `fixed` and doubles on every retry for `exponential`. A workflow waits for the longest backoff among its tasks.
- **The search plugin** (`searchPlugin`). It merges its defaults into the user's settings. Each enabled collection gets one more `afterChange` hook and one more `afterDelete` hook, after its existing ones. The generated search collection is appended to the collection list.
- **The root server-function handler** (`handleServerFunctions`). It builds a name-to-function table: the default `form-state` entry first, then the configured entries, where the last entry with a given name wins. It looks the name up and throws `Unknown Server Function: <name>` on a miss. Otherwise it calls the function with the client's arguments plus `importMap` and `req`.

Files:

- `wrappers.dfy`: `Option`, `Result` (a thrown error is a `Failure`), and an opaque `Json` value.
- `ordered_sets.dfy`: a JavaScript `Set` of strings, modelled as a sequence without repeats in insertion order. This is the order `[...set]` spreads it in.
- `task_types.dfy`: the task types, the backoff schedule, and the rule that the longest task backoff sets the workflow's wait.
- `jobs_collection.dfy`: the slug-collecting loops (two methods), the field list, the `JobSchema` predicate that states what the collection declares, the builder, and the job document class with its `afterRead` hook.
- `search_plugin.dfy`: the plugin's transformer, all pure functions.
- `server_functions.dfy`: the table built by a loop, the argument merge, the lookup and the handler.

Notes on how the source was read:

- `if (workflow.queue)` tests truthiness, so a workflow whose queue is the empty string adds no queue name. The model keeps that case.
- The "Status" tab of the jobs collection only groups fields in the admin panel. Payload stores the fields of an unnamed tab at the top level of the document, so the model lists them in place of the tab.
- The documentation of `TaskConfig.slug` says a slug must be unique among both tasks and workflows. The builder only rejects a task slug that a workflow uses; two tasks with the same slug pass it (`DuplicateTaskSlugsPass`). Where the two differ, the model follows the code.
- `RetryConfig.backoff.type` is a required property in the type, but its documentation gives `fixed` as the default. The model accepts a missing type and reads it as `fixed`.

## Model

| member | source | states |
|---|---|---|
| `JobsCollection.CollectWorkflowNames` | packages/payload/src/queues/config/jobsCollection.ts:15-26 | The workflow-slug set and the queue set hold each workflow slug, and `default` plus each non-empty workflow queue. Each value appears once, in order of first addition. |
| `JobsCollection.CollectTaskSlugs` | packages/payload/src/queues/config/jobsCollection.ts:28-35 | The task-slug set is `inline` plus every task slug, in insertion order. It fails exactly when some task slug is a workflow slug. The error is the collision message naming the first such task. |
| `JobsCollection.CollectSlugs` | packages/payload/src/queues/config/jobsCollection.ts:15-35 | It fails if and only if any task shares a slug with any workflow, wherever either stands. Otherwise all three sets are the insertion orders of what was added. |
| `JobsCollection.GetDefaultJobsCollection` | packages/payload/src/queues/config/jobsCollection.ts:10-261 | With no workflows array it returns `null` (`Success(None)`). Otherwise it throws exactly on a task/workflow slug collision, naming the first colliding task. On success the collection satisfies `JobSchema`. |
| `JobsCollection.JobsCollectionForSchema` | packages/payload/src/queues/config/jobsCollection.ts:77-259 | The collection built from the collected sets satisfies `JobSchema`: slug `payload-jobs`, admin group `System`, hidden, and the one run-jobs endpoint. It has exactly the thirteen top-level fields in declaration order, with their types, indexes and select options. None is required, and only the five defaulted fields have a default. `taskStatus` is the only virtual field. The log entry has exactly its eight fields with their types, none indexed or virtual, and the `afterRead` hook is set. |
| `JobsCollection.JobFieldsDefaults` | packages/payload/src/queues/config/jobsCollection.ts:112-243 | A new job defaults to `totalTried = 0`, `hasError = false`, `processing = false`, `seenByWorker = false` and `queue = 'default'`. |
| `JobsCollection.JobFieldsOptions` | packages/payload/src/queues/config/jobsCollection.ts:192-221 | The `workflowSlug`, `taskSlug` and `queue` select fields offer the collected sets. Neither slug field is required. |
| `JobsCollection.JobFieldsLayout` | packages/payload/src/queues/config/jobsCollection.ts:84-244 | The top-level field names are exactly `input, taskStatus, completedAt, totalTried, hasError, error, log, workflowSlug, taskSlug, queue, waitUntil, processing, seenByWorker`, in that order, with no repeats. `taskStatus` is a virtual JSON field typed by the task-status schema. `log` is an array of the log-entry fields. |
| `JobsCollection.LogFieldsSchema` | packages/payload/src/queues/config/jobsCollection.ts:141-185 | A log entry has exactly the fields `executedAt, completedAt, taskSlug, taskID, input, output, state, error`, in that order, and none of them is virtual or indexed. It requires `executedAt`, `completedAt`, `taskSlug`, `taskID`, `state` and `error`. `input`/`output` are present but optional. `state` is one of `failed`/`succeeded`, and `taskSlug` offers `inline` plus every task slug. |
| `JobsCollection.LogFieldsTypes` | packages/payload/src/queues/config/jobsCollection.ts:141-185 | The log entry's field names come in declaration order, and no field is virtual. `executedAt`/`completedAt` are dates and `taskID` is text. `input`, `output` and `error` are JSON, and no log field is indexed. |
| `JobsCollection.TaskSlugOptions` | packages/payload/src/queues/config/jobsCollection.ts:153-211 | The task-slug options are exactly `{'inline'}` ∪ {every task slug}. The log's `taskSlug` offers the same list as the top-level `taskSlug`. |
| `JobsCollection.QueueOptions` | packages/payload/src/queues/config/jobsCollection.ts:18-25 | The queue options are exactly `default` and every non-empty queue a workflow names. |
| `JobsCollection.WorkflowSlugOptions` | packages/payload/src/queues/config/jobsCollection.ts:192-201 | The `workflowSlug` options are exactly the workflow slugs. |
| `JobsCollection.QueuesAddedMembers` | packages/payload/src/queues/config/jobsCollection.ts:23-25 | A queue name is added if and only if some workflow's queue is set to that name and the name is non-empty. |
| `JobsCollection.TaskStatusSchemaKeys` | packages/payload/src/queues/config/jobsCollection.ts:43-75 | The `taskStatus` schema has one property per task slug plus `inline`. `inline` always imports `JobTaskStatus<any>`, overriding a task named `inline`. Every other property imports the status of its own slug. |
| `JobsCollection.CollisionIgnoresOrder` | packages/payload/src/queues/config/jobsCollection.ts:20-35 | Reordering workflows or tasks does not change whether the builder throws. |
| `JobsCollection.UniqueSlugsNeverCollide` | packages/payload/src/queues/config/types/taskTypes.ts:157-159 | A configuration that keeps task slugs unique among tasks and workflows never trips the builder's collision check. |
| `JobsCollection.DuplicateTaskSlugsPass` | packages/payload/src/queues/config/jobsCollection.ts:28-35 | Take any workflows and any tasks that pass the collision check. Adding a second copy of one of those tasks still passes, although the documented uniqueness rule forbids the duplicate. |
| `JobsCollection.JobFieldsStatusTypes` | packages/payload/src/queues/config/jobsCollection.ts:84-134 | `input` and `error` are unindexed JSON fields. `completedAt` is an indexed date, `totalTried` an indexed number and `hasError` an indexed checkbox. |
| `JobsCollection.JobFieldsPayloadTypes` | packages/payload/src/queues/config/jobsCollection.ts:84-134 | `input` and `error` are unindexed JSON fields, and `completedAt` is an indexed date. |
| `JobsCollection.JobFieldsCounterTypes` | packages/payload/src/queues/config/jobsCollection.ts:112-126 | `totalTried` is an indexed number and `hasError` an indexed checkbox. |
| `JobsCollection.JobFieldsFlags` | packages/payload/src/queues/config/jobsCollection.ts:84-243 | No top-level field is required. Only `totalTried`, `hasError`, `queue`, `processing` and `seenByWorker` have a default. `taskStatus` and `log` are not indexed. |
| `JobsCollection.JobFieldsScheduleTypes` | packages/payload/src/queues/config/jobsCollection.ts:186-243 | `workflowSlug`, `taskSlug` and `queue` are indexed. `waitUntil` is an indexed date, `processing` an indexed checkbox, and `seenByWorker` an unindexed checkbox. |
| `JobsCollection.AfterReadHook` | packages/payload/src/queues/config/jobsCollection.ts:245-257 | The hook sets `doc.taskStatus` to `getJobTaskStatus(doc.log, tasks)` in place, returns the same document and leaves every other field unchanged. |
| `TaskTypes.SaveResult` | packages/payload/src/queues/config/types/taskTypes.ts:33-36 | A saved task result keeps every job-log field except `input`/`output`, which become the task's typed ones. Reading it back gives the entry with those two replaced. |
| `TaskTypes.SavedResultRoundTrip` | packages/payload/src/queues/config/types/taskTypes.ts:33-36 | Converting a saved result to a log entry and back gives the same saved result. |
| `TaskTypes.MissingTypeIsFixed` | packages/payload/src/queues/config/types/taskTypes.ts:95-99 | A backoff without a `type` behaves as `fixed`. |
| `TaskTypes.FixedScheduleIsConstant` | packages/payload/src/queues/config/types/taskTypes.ts:99 | With fixed backoff, every retry waits the base delay. |
| `TaskTypes.ExponentialScheduleDoubles` | packages/payload/src/queues/config/types/taskTypes.ts:101 | With exponential backoff, the first retry waits the base delay and each later retry waits twice the previous one. |
| `TaskTypes.FixedExample` | packages/payload/src/queues/config/types/taskTypes.ts:103-108 | delay 1000, 3 attempts, fixed: the waits are 1000, 1000, 1000. |
| `TaskTypes.ExponentialExample` | packages/payload/src/queues/config/types/taskTypes.ts:110-115 | delay 1000, 3 attempts, exponential: the waits are 1000, 2000, 4000. |
| `TaskTypes.WorkflowWait` | packages/payload/src/queues/config/types/taskTypes.ts:86-89 | The workflow's wait is at least every task's wait and equals one of them. There is no wait when there are no tasks. |
| `TaskTypes.WorkflowWaitsForSlowestTask` | packages/payload/src/queues/config/types/taskTypes.ts:86-89 | For failed tasks, the workflow waits at least as long as each task's own next backoff, and exactly as long as one of them. |
| `SearchPlugin.WithDefaults` | packages/plugin-search/src/index.ts:18-23 | The effective settings are `deleteDrafts: true, syncDrafts: false`, each overridden by the incoming setting when it is given. All other settings pass through. |
| `SearchPlugin.AddSearchHooks` | packages/plugin-search/src/index.ts:27-61 | A collection that is not enabled is returned unchanged. An enabled one keeps its slug, properties and other hook kinds, and its `afterChange`/`afterDelete` lists each gain exactly one search hook at the end. |
| `SearchPlugin.AddSearchHooksToAll` | packages/plugin-search/src/index.ts:26-62 | The collections come out in the same order and number, each passed through `AddSearchHooks`. |
| `SearchPlugin.SearchPlugin` | packages/plugin-search/src/index.ts:12-74 | Without collections the config is returned unchanged. Otherwise every other config field is kept, and the collections are the input collections in order with hooks added, followed by exactly one generated search collection. |
| `SearchPlugin.NoCollectionsGivesOnlySearch` | packages/plugin-search/src/index.ts:64-69 | An empty collection list becomes a list holding only the search collection. |
| `SearchPlugin.HooksAddedPerEnabledCollection` | packages/plugin-search/src/index.ts:30-55 | Over all collections, the plugin adds exactly one `afterChange` hook and one `afterDelete` hook per enabled collection. |
| `ServerFunctions.AugmentArgs` | packages/next/src/utilities/handleServerFunctions.ts:16-20 | The augmented arguments are the client's arguments plus `importMap` and `req`. Those two replace same-named client keys, and every other key keeps its value. |
| `ServerFunctions.ConfiguredTable` | packages/next/src/utilities/handleServerFunctions.ts:26-29 | The reduced object has one key per configured name. Each name maps to the function of the last entry with that name. |
| `ServerFunctions.BuildServerFunctions` | packages/next/src/utilities/handleServerFunctions.ts:22-30 | With no configured functions the table is exactly the defaults. Otherwise its keys are `form-state` plus the configured names, the last configured entry wins, and the default stays unless a configured entry replaces it. |
| `ServerFunctions.HandleServerFunctions` | packages/next/src/utilities/handleServerFunctions.ts:11-38 | It succeeds exactly for `form-state` or a configured name. Then it makes one call, of the function the name resolves to, with the augmented arguments. An unknown name throws and calls nothing. |
| `ServerFunctions.LookupAsWritten` | packages/next/src/utilities/handleServerFunctions.ts:32-36 | As written, the lookup throws only when the name is neither a key of the table nor a property inherited from `Object.prototype`. |
| `ServerFunctions.InheritedNamePassesUnknownCheck` | packages/next/src/utilities/handleServerFunctions.ts:32-36 | The name `constructor` passes the written check, though the table does not hold it, while the own-key lookup rejects it. |

## Findings

| source | as written | input that shows it | evidently intended | confidence | as-written member | corrected member |
|---|---|---|---|---|---|---|
| packages/next/src/utilities/handleServerFunctions.ts:32-36 | `serverFunctions[fnKey]` reads a property of an object literal. That read also finds the properties every object inherits from `Object.prototype`, so `if (!fn)` lets those names through. | `name: 'constructor'`: `fn` is the `Object` constructor, and the handler returns `Object(augmentedArgs)`, the augmented arguments themselves. | Any name that is not a key of the table throws `Unknown Server Function: <name>`. | not executed; follows from JavaScript property lookup on plain objects | `ServerFunctions.LookupAsWritten`, `ServerFunctions.InheritedNamePassesUnknownCheck` | `ServerFunctions.HandleServerFunctions` (the intended property is proved in its contract, through `ServerFunctions.Lookup`) |

## Left out

- The job runner, the atomic claim through `processing`, the workflow executor and `getJobTaskStatus`. Their code is not part of this model. `getJobTaskStatus` is a function parameter of `AfterReadHook`, and the runner's REST endpoint is the token `RunAllJobsEndpoint`.
- `jsonSchemaExternalImport`: a call into schema generation. The model records its arguments (`ExternalImport`) and not the schema object it returns.
- Admin-only field settings: descriptions, sidebar positions, `condition` callbacks and the tab label. They affect only the admin panel.
- The backoff calculator: its code is not part of this model. The delay function follows the documentation. A missing `delay` is the explicit parameter `defaultDelay`, because the documentation names no default. With no `backoff` configured (or a bare number of retries), the model's wait is 0, since the documentation gives no backoff in that case.
- How a handler result without `state` is treated: the runner decides that, and the runner is not part of this model. `TaskHandlerResult.state` is an optional `failed`/`succeeded`.
- `TaskTypes.Schedule`: `attempts` and `delay` are natural numbers. Negative or fractional JavaScript numbers are not modelled.
- `SearchPlugin.WithDefaults`: an incoming setting explicitly set to `undefined` is treated as absent. In the source, the spread would overwrite the default with `undefined`.
- `.filter(Boolean)` after the collection map: every mapped collection is an object, so the filter removes nothing and the model leaves it out.
- `syncWithSearch`, `deleteFromSearch` and `generateSearchCollection`: database work. The added hooks are the tokens `SyncWithSearch`/`DeleteFromSearch`, which carry what the closures capture. `generateSearchCollection` is a function parameter.
- `initReq` and `buildFormState`: request setup and form-state building. The request is a parameter (`Request`), and `buildFormState` is the token `BuildFormState`.
- The result of the called server function, and the asynchrony of the handler. `HandleServerFunctions` returns the single call it makes (`Invocation`), not that call's result.
- A configured server function named `__proto__`: assigning it in the `reduce` sets the accumulator's prototype rather than an own key. The model treats it as an ordinary name.
