/**
 * The `payload-jobs` collection: the builder that, from the configured
 * workflows and tasks, collects the workflow slugs, task slugs and queue
 * names, rejects a task that reuses a workflow's slug, and declares the job
 * document's fields with those names as select options; and the `afterRead`
 * hook that fills the virtual `taskStatus` field from the job's log.
 */
module JobsCollection {
  import opened Wrappers
  import opened OrderedSets
  import opened TaskTypes

  // ---------------------------------------------------------------------
  // Configuration read by the builder
  // ---------------------------------------------------------------------

  /** The parts of a workflow's configuration the builder reads. */
  datatype WorkflowConfig = WorkflowConfig(slug: string, queue: Option<string>)

  /** `config.jobs`; `workflows` is `None` when it is missing or not an array. */
  datatype JobsConfig = JobsConfig(tasks: seq<TaskConfig>, workflows: Option<seq<WorkflowConfig>>)

  datatype Config = Config(jobs: Option<JobsConfig>)

  predicate HasWorkflows(config: Config) {
    config.jobs.Some? && config.jobs.value.workflows.Some?
  }

  /** `if (workflow.queue)`: a missing or empty queue name is not added. */
  predicate IsTruthy(queue: Option<string>) {
    queue.Some? && queue.value != ""
  }

  function WorkflowSlugs(workflows: seq<WorkflowConfig>): (slugs: seq<string>)
    ensures |slugs| == |workflows|
    ensures forall i :: 0 <= i < |workflows| ==> slugs[i] == workflows[i].slug
  {
    seq(|workflows|, i requires 0 <= i < |workflows| => workflows[i].slug)
  }

  function TaskSlugs(tasks: seq<TaskConfig>): (slugs: seq<string>)
    ensures |slugs| == |tasks|
    ensures forall i :: 0 <= i < |tasks| ==> slugs[i] == tasks[i].slug
  {
    seq(|tasks|, i requires 0 <= i < |tasks| => tasks[i].slug)
  }

  /** The queue names the builder adds, one per workflow with a queue, in workflow order. */
  function QueuesAdded(workflows: seq<WorkflowConfig>): (queues: seq<string>) {
    if workflows == [] then []
    else
      var last := workflows[|workflows| - 1];
      QueuesAdded(workflows[..|workflows| - 1]) + (if IsTruthy(last.queue) then [last.queue.value] else [])
  }

  lemma {:induction false} QueuesAddedMembers(workflows: seq<WorkflowConfig>, q: string)
    ensures q in QueuesAdded(workflows) <==>
            exists i :: 0 <= i < |workflows| && workflows[i].queue == Some(q) && q != ""
  {
    if workflows != [] {
      var n := |workflows| - 1;
      var init := workflows[..n];
      QueuesAddedMembers(init, q);
      if q in QueuesAdded(init) {
        var i :| 0 <= i < |init| && init[i].queue == Some(q) && q != "";
        assert workflows[i] == init[i];
      }
      if exists i :: 0 <= i < |workflows| && workflows[i].queue == Some(q) && q != "" {
        var i :| 0 <= i < |workflows| && workflows[i].queue == Some(q) && q != "";
        if i < n {
          assert init[i] == workflows[i];
        }
      }
    }
  }

  // ---------------------------------------------------------------------
  // Slug and queue collection
  // ---------------------------------------------------------------------

  /** Some task has the slug of some workflow, wherever the two stand in their lists. */
  ghost predicate SlugCollision(workflows: seq<WorkflowConfig>, tasks: seq<TaskConfig>) {
    exists t, w :: t in tasks && w in workflows && t.slug == w.slug
  }

  /** Task `i` is the first task, in configuration order, whose slug is a workflow's. */
  ghost predicate FirstCollision(workflows: seq<WorkflowConfig>, tasks: seq<TaskConfig>, i: int) {
    && 0 <= i < |tasks|
    && tasks[i].slug in WorkflowSlugs(workflows)
    && forall j :: 0 <= j < i ==> tasks[j].slug !in WorkflowSlugs(workflows)
  }

  function CollisionMessage(slug: string): string {
    "Task slug \"" + slug + "\" is already used by a workflow. No tasks are allowed to have the same slug as a workflow."
  }

  /** The three `Set`s the builder fills, as `[...set]` spreads them. */
  datatype SlugSets = SlugSets(workflowSlugs: seq<string>, taskSlugs: seq<string>, queueNames: seq<string>)

  ghost predicate SlugSetsOf(sets: SlugSets, workflows: seq<WorkflowConfig>, tasks: seq<TaskConfig>) {
    && InsertionOrderOf(sets.workflowSlugs, WorkflowSlugs(workflows))
    && InsertionOrderOf(sets.taskSlugs, ["inline"] + TaskSlugs(tasks))
    && InsertionOrderOf(sets.queueNames, ["default"] + QueuesAdded(workflows))
  }

  lemma WorkflowSlugsSnoc(workflows: seq<WorkflowConfig>, i: nat)
    requires i < |workflows|
    ensures WorkflowSlugs(workflows[..i + 1]) == WorkflowSlugs(workflows[..i]) + [workflows[i].slug]
  {
  }

  lemma TaskSlugsSnoc(tasks: seq<TaskConfig>, j: nat)
    requires j < |tasks|
    ensures TaskSlugs(tasks[..j + 1]) == TaskSlugs(tasks[..j]) + [tasks[j].slug]
  {
  }

  lemma QueuesAddedSnoc(workflows: seq<WorkflowConfig>, i: nat)
    requires i < |workflows|
    ensures QueuesAdded(workflows[..i + 1])
         == QueuesAdded(workflows[..i]) + (if IsTruthy(workflows[i].queue) then [workflows[i].queue.value] else [])
  {
    assert workflows[..i + 1][..i] == workflows[..i];
  }

  /** One workflow's slug added to the slug set keeps it the insertion order of the slugs so far. */
  lemma SlugStep(workflows: seq<WorkflowConfig>, i: nat, slugs: seq<string>)
    requires i < |workflows|
    requires InsertionOrderOf(slugs, WorkflowSlugs(workflows[..i]))
    ensures InsertionOrderOf(Add(slugs, workflows[i].slug), WorkflowSlugs(workflows[..i + 1]))
  {
    AddKeepsInsertionOrder(slugs, WorkflowSlugs(workflows[..i]), workflows[i].slug);
    WorkflowSlugsSnoc(workflows, i);
  }

  /** One workflow's queue, added when it names one, keeps the queue set the insertion order so far. */
  lemma QueueStep(workflows: seq<WorkflowConfig>, i: nat, queues: seq<string>)
    requires i < |workflows|
    requires InsertionOrderOf(queues, ["default"] + QueuesAdded(workflows[..i]))
    ensures var queue := workflows[i].queue;
            InsertionOrderOf(if IsTruthy(queue) then Add(queues, queue.value) else queues,
                             ["default"] + QueuesAdded(workflows[..i + 1]))
  {
    QueuesAddedSnoc(workflows, i);
    var queue := workflows[i].queue;
    if IsTruthy(queue) {
      AddKeepsInsertionOrder(queues, ["default"] + QueuesAdded(workflows[..i]), queue.value);
      assert ["default"] + QueuesAdded(workflows[..i + 1])
          == ["default"] + QueuesAdded(workflows[..i]) + [queue.value];
    } else {
      assert ["default"] + QueuesAdded(workflows[..i + 1]) == ["default"] + QueuesAdded(workflows[..i]);
    }
  }

  /** The first `forEach`: every workflow's slug, and its queue when it names one. */
  method CollectWorkflowNames(workflows: seq<WorkflowConfig>) returns (workflowSlugs: seq<string>, queueNames: seq<string>)
    ensures InsertionOrderOf(workflowSlugs, WorkflowSlugs(workflows))
    ensures InsertionOrderOf(queueNames, ["default"] + QueuesAdded(workflows))
  {
    workflowSlugs := [];
    queueNames := Add([], "default");
    assert workflows[..0] == [];
    var i := 0;
    while i < |workflows|
      invariant 0 <= i <= |workflows|
      invariant InsertionOrderOf(workflowSlugs, WorkflowSlugs(workflows[..i]))
      invariant InsertionOrderOf(queueNames, ["default"] + QueuesAdded(workflows[..i]))
    {
      var workflow := workflows[i];
      SlugStep(workflows, i, workflowSlugs);
      QueueStep(workflows, i, queueNames);
      workflowSlugs := Add(workflowSlugs, workflow.slug);
      if workflow.queue.Some? && workflow.queue.value != "" {
        queueNames := Add(queueNames, workflow.queue.value);
      }
      i := i + 1;
    }
    assert workflows[..i] == workflows;
  }

  /** The second `forEach`: every task's slug, throwing at the first that a workflow already uses. */
  method CollectTaskSlugs(workflows: seq<WorkflowConfig>, workflowSlugs: seq<string>, tasks: seq<TaskConfig>)
    returns (r: Result<seq<string>, string>)
    requires forall x :: x in workflowSlugs <==> x in WorkflowSlugs(workflows)
    ensures r.Failure? <==> SlugCollision(workflows, tasks)
    ensures r.Failure? ==> exists i :: FirstCollision(workflows, tasks, i) && r.error == CollisionMessage(tasks[i].slug)
    ensures r.Success? ==> InsertionOrderOf(r.value, ["inline"] + TaskSlugs(tasks))
  {
    var taskSlugs := Add([], "inline");
    var j := 0;
    while j < |tasks|
      invariant 0 <= j <= |tasks|
      invariant InsertionOrderOf(taskSlugs, ["inline"] + TaskSlugs(tasks[..j]))
      invariant forall k :: 0 <= k < j ==> tasks[k].slug !in WorkflowSlugs(workflows)
    {
      var task := tasks[j];
      if task.slug in workflowSlugs {
        var k :| 0 <= k < |workflows| && WorkflowSlugs(workflows)[k] == task.slug;
        assert task in tasks && workflows[k] in workflows;
        assert FirstCollision(workflows, tasks, j);
        return Failure(CollisionMessage(task.slug));
      }
      AddKeepsInsertionOrder(taskSlugs, ["inline"] + TaskSlugs(tasks[..j]), task.slug);
      TaskSlugsSnoc(tasks, j);
      assert ["inline"] + TaskSlugs(tasks[..j + 1]) == ["inline"] + TaskSlugs(tasks[..j]) + [task.slug];
      taskSlugs := Add(taskSlugs, task.slug);
      j := j + 1;
    }
    assert tasks[..j] == tasks;
    forall t, w | t in tasks && w in workflows
      ensures t.slug != w.slug
    {
      var a :| 0 <= a < |tasks| && tasks[a] == t;
      var b :| 0 <= b < |workflows| && workflows[b] == w;
      assert WorkflowSlugs(workflows)[b] == w.slug;
    }
    r := Success(taskSlugs);
  }

  /**
   * Collects the workflow slugs and queue names (seeded with `default`), then
   * the task slugs (seeded with `inline`), throwing at the first task whose
   * slug a workflow already uses.
   */
  method CollectSlugs(workflows: seq<WorkflowConfig>, tasks: seq<TaskConfig>) returns (r: Result<SlugSets, string>)
    ensures r.Failure? <==> SlugCollision(workflows, tasks)
    ensures r.Failure? ==> exists i :: FirstCollision(workflows, tasks, i) && r.error == CollisionMessage(tasks[i].slug)
    ensures r.Success? ==> SlugSetsOf(r.value, workflows, tasks)
  {
    var workflowSlugs, queueNames := CollectWorkflowNames(workflows);
    var taskSlugs :- CollectTaskSlugs(workflows, workflowSlugs, tasks);
    r := Success(SlugSets(workflowSlugs, taskSlugs, queueNames));
  }

  /** The collision verdict depends on which tasks and workflows there are, not on their order. */
  lemma CollisionIgnoresOrder(workflows: seq<WorkflowConfig>, workflows': seq<WorkflowConfig>,
                              tasks: seq<TaskConfig>, tasks': seq<TaskConfig>)
    requires multiset(workflows) == multiset(workflows') && multiset(tasks) == multiset(tasks')
    ensures SlugCollision(workflows, tasks) <==> SlugCollision(workflows', tasks')
  {
    forall t, w ensures (t in tasks && w in workflows) <==> (t in tasks' && w in workflows') {
      assert t in tasks <==> t in multiset(tasks);
      assert t in tasks' <==> t in multiset(tasks');
      assert w in workflows <==> w in multiset(workflows);
      assert w in workflows' <==> w in multiset(workflows');
    }
  }

  /** A configuration that keeps task slugs unique among tasks and workflows never collides. */
  lemma UniqueSlugsNeverCollide(workflows: seq<WorkflowConfig>, tasks: seq<TaskConfig>)
    requires SlugsUnique(tasks, WorkflowSlugs(workflows))
    ensures !SlugCollision(workflows, tasks)
  {
    forall t, w | t in tasks && w in workflows
      ensures t.slug != w.slug
    {
      var a :| 0 <= a < |tasks| && tasks[a] == t;
      var b :| 0 <= b < |workflows| && workflows[b] == w;
      assert WorkflowSlugs(workflows)[b] == w.slug;
    }
  }

  /**
   * The builder only rejects a task that reuses a workflow's slug: two tasks
   * sharing a slug pass it, although the documented rule forbids that too.
   */
  lemma DuplicateTaskSlugsPass(workflows: seq<WorkflowConfig>, tasks: seq<TaskConfig>, t: TaskConfig)
    requires !SlugCollision(workflows, tasks) && t in tasks
    ensures !SlugCollision(workflows, tasks + [t])
    ensures !SlugsUnique(tasks + [t], WorkflowSlugs(workflows))
  {
    var tasks' := tasks + [t];
    forall u, w | u in tasks' && w in workflows
      ensures u.slug != w.slug
    {
      assert u in tasks;
    }
    var i :| 0 <= i < |tasks| && tasks[i] == t;
    assert tasks'[i].slug == tasks'[|tasks|].slug;
  }

  // ---------------------------------------------------------------------
  // The collection's fields
  // ---------------------------------------------------------------------

  datatype Value = NumberValue(n: int) | BoolValue(b: bool) | TextValue(s: string)

  /** The arguments of a `jsonSchemaExternalImport` call; its result is opaque. */
  datatype ExternalImport = ExternalImport(source: string, generics: seq<string>, specifier: string)

  /** The `taskStatus` JSON schema: for each property name, the schema its entries import. */
  type StatusSchema = map<string, ExternalImport>

  datatype FieldType =
    | JsonField(typescriptSchema: Option<StatusSchema>)
    | DateField
    | NumberField
    | CheckboxField
    | TextField
    | SelectField(options: seq<string>)
    | RadioField(choices: seq<string>)
    | ArrayField(subFields: seq<Field>)

  datatype Field = Field(
    name: string,
    fieldType: FieldType,
    required: bool,
    defaultValue: Option<Value>,
    index: bool,
    isVirtual: bool)

  datatype Endpoint = RunAllJobsEndpoint

  /** The `afterRead` hook that sets `taskStatus` from `log` (see `AfterReadHook`). */
  datatype ReadHook = TaskStatusHook

  datatype CollectionConfig = CollectionConfig(
    slug: string,
    adminGroup: string,
    hidden: bool,
    endpoints: seq<Endpoint>,
    fields: seq<Field>,
    afterRead: seq<ReadHook>)

  function StatusImport(generic: string): ExternalImport {
    ExternalImport("payload", [generic], "JobTaskStatus")
  }

  /** One property per task slug, importing its typed status, then `inline`, importing `any`. */
  function TaskStatusSchema(tasks: seq<TaskConfig>): (schema: StatusSchema) {
    (map t | t in TaskSlugs(tasks) :: StatusImport("\"" + t + "\""))["inline" := StatusImport("any")]
  }

  function PlainField(name: string, fieldType: FieldType): Field {
    Field(name, fieldType, false, None, false, false)
  }

  function LogFields(taskSlugs: seq<string>): seq<Field> {
    [ PlainField("executedAt", DateField).(required := true),
      PlainField("completedAt", DateField).(required := true),
      PlainField("taskSlug", SelectField(taskSlugs)).(required := true),
      PlainField("taskID", TextField).(required := true),
      PlainField("input", JsonField(None)),
      PlainField("output", JsonField(None)),
      PlainField("state", RadioField(["failed", "succeeded"])).(required := true),
      PlainField("error", JsonField(None)).(required := true) ]
  }

  /**
   * The collection the builder returns. The fields of the admin tab "Status"
   * are listed in place of the tab, which only groups them on screen.
   */
  function JobsCollectionFor(sets: SlugSets, tasks: seq<TaskConfig>): CollectionConfig {
    CollectionConfig("payload-jobs", "System", true, [RunAllJobsEndpoint], JobFields(sets, tasks), [TaskStatusHook])
  }

  function JobFields(sets: SlugSets, tasks: seq<TaskConfig>): (fields: seq<Field>) {
      [ PlainField("input", JsonField(None)),
        PlainField("taskStatus", JsonField(Some(TaskStatusSchema(tasks)))).(isVirtual := true),
        PlainField("completedAt", DateField).(index := true),
        PlainField("totalTried", NumberField).(defaultValue := Some(NumberValue(0)), index := true),
        PlainField("hasError", CheckboxField).(defaultValue := Some(BoolValue(false)), index := true),
        PlainField("error", JsonField(None)),
        PlainField("log", ArrayField(LogFields(sets.taskSlugs))),
        PlainField("workflowSlug", SelectField(sets.workflowSlugs)).(index := true),
        PlainField("taskSlug", SelectField(sets.taskSlugs)).(index := true),
        PlainField("queue", SelectField(sets.queueNames)).(defaultValue := Some(TextValue("default")), index := true),
        PlainField("waitUntil", DateField).(index := true),
        PlainField("processing", CheckboxField).(defaultValue := Some(BoolValue(false)), index := true),
        PlainField("seenByWorker", CheckboxField).(defaultValue := Some(BoolValue(false))) ]
  }

  // ---------------------------------------------------------------------
  // Reading a field list
  // ---------------------------------------------------------------------

  /** The first field named `name` at or after position `from`. */
  function FindFieldFrom(fields: seq<Field>, name: string, from: nat): Option<Field>
    decreases |fields| - from
  {
    if from >= |fields| then None
    else if fields[from].name == name then Some(fields[from])
    else FindFieldFrom(fields, name, from + 1)
  }

  function FindField(fields: seq<Field>, name: string): Option<Field> {
    FindFieldFrom(fields, name, 0)
  }

  lemma {:induction false} FindFieldAt(fields: seq<Field>, name: string, from: nat, i: nat)
    requires from <= i < |fields| && fields[i].name == name
    requires forall j :: from <= j < i ==> fields[j].name != name
    ensures FindFieldFrom(fields, name, from) == Some(fields[i])
    decreases i - from
  {
    if from < i {
      FindFieldAt(fields, name, from + 1, i);
    }
  }

  predicate NamesDistinct(fields: seq<Field>) {
    forall i, j :: 0 <= i < j < |fields| ==> fields[i].name != fields[j].name
  }

  function DefaultOf(fields: seq<Field>, name: string): Option<Value> {
    match FindField(fields, name)
    case Some(f) => f.defaultValue
    case None => None
  }

  function IsRequired(fields: seq<Field>, name: string): bool {
    FindField(fields, name).Some? && FindField(fields, name).value.required
  }

  /** The option list of the select field `name`, if it is one. */
  function SelectOptions(fields: seq<Field>, name: string): Option<seq<string>> {
    match FindField(fields, name)
    case Some(Field(_, SelectField(options), _, _, _, _)) => Some(options)
    case _ => None
  }

  function SubFields(fields: seq<Field>, name: string): Option<seq<Field>> {
    match FindField(fields, name)
    case Some(Field(_, ArrayField(sub), _, _, _, _)) => Some(sub)
    case _ => None
  }

  /** The select field `name` offers exactly the values `added`, once each, in order of first addition. */
  ghost predicate OffersInsertionOrderOf(fields: seq<Field>, name: string, added: seq<string>) {
    SelectOptions(fields, name).Some? && InsertionOrderOf(SelectOptions(fields, name).value, added)
  }

  /** The log entry's fields, in the order the collection declares them. */
  const LogFieldNames: seq<string> :=
    ["executedAt", "completedAt", "taskSlug", "taskID", "input", "output", "state", "error"]

  /** No field of `fields` is virtual. */
  predicate NoneVirtual(fields: seq<Field>) {
    forall i :: 0 <= i < |fields| ==> !fields[i].isVirtual
  }

  /** No field of `fields` is indexed. */
  predicate NoneIndexed(fields: seq<Field>) {
    forall i :: 0 <= i < |fields| ==> !fields[i].index
  }

  /** The types of a log entry's fields. */
  ghost predicate LogEntryTypes(sub: seq<Field>) {
    && FieldIs(sub, "executedAt", DateField, false)
    && FieldIs(sub, "completedAt", DateField, false)
    && FieldIs(sub, "taskID", TextField, false)
    && FieldIs(sub, "input", JsonField(None), false)
    && FieldIs(sub, "output", JsonField(None), false)
    && FieldIs(sub, "error", JsonField(None), false)
  }

  /** What a job's log entry declares. */
  ghost predicate LogEntrySchema(sub: seq<Field>, tasks: seq<TaskConfig>) {
    && FieldNames(sub) == LogFieldNames
    && NamesDistinct(sub)
    && NoneVirtual(sub)
    && NoneIndexed(sub)
    && LogEntryTypes(sub)
    && LogEntryRules(sub, tasks)
  }

  /** Which log fields are required, the two states, and the task-slug options. */
  ghost predicate LogEntryRules(sub: seq<Field>, tasks: seq<TaskConfig>) {
    && IsRequired(sub, "executedAt") && IsRequired(sub, "completedAt")
    && IsRequired(sub, "taskSlug") && IsRequired(sub, "taskID") && IsRequired(sub, "error")
    && IsRequired(sub, "state")
    && FindField(sub, "state").Some?
    && FindField(sub, "state").value.fieldType == RadioField(["failed", "succeeded"])
    && !IsRequired(sub, "input") && !IsRequired(sub, "output")
    && OffersInsertionOrderOf(sub, "taskSlug", ["inline"] + TaskSlugs(tasks))
  }

  /** A new job starts untried, without error, unclaimed and in the `default` queue. */
  ghost predicate NewJobDefaults(fields: seq<Field>) {
    && DefaultOf(fields, "totalTried") == Some(NumberValue(0))
    && DefaultOf(fields, "hasError") == Some(BoolValue(false))
    && DefaultOf(fields, "processing") == Some(BoolValue(false))
    && DefaultOf(fields, "seenByWorker") == Some(BoolValue(false))
    && DefaultOf(fields, "queue") == Some(TextValue("default"))
  }

  /** The select options are the collected names; neither slug field is required. */
  ghost predicate JobSelectOptions(fields: seq<Field>, workflows: seq<WorkflowConfig>, tasks: seq<TaskConfig>) {
    && OffersInsertionOrderOf(fields, "workflowSlug", WorkflowSlugs(workflows))
    && !IsRequired(fields, "workflowSlug")
    && OffersInsertionOrderOf(fields, "taskSlug", ["inline"] + TaskSlugs(tasks))
    && !IsRequired(fields, "taskSlug")
    && OffersInsertionOrderOf(fields, "queue", ["default"] + QueuesAdded(workflows))
  }

  /** `taskStatus` is virtual, typed by one schema property per task slug and `inline`. */
  ghost predicate TaskStatusIsVirtual(fields: seq<Field>, tasks: seq<TaskConfig>) {
    && FindField(fields, "taskStatus").Some?
    && FindField(fields, "taskStatus").value.isVirtual
    && FindField(fields, "taskStatus").value.fieldType == JsonField(Some(TaskStatusSchema(tasks)))
  }

  function FieldNames(fields: seq<Field>): (names: seq<string>)
    ensures |names| == |fields|
    ensures forall i :: 0 <= i < |fields| ==> names[i] == fields[i].name
  {
    seq(|fields|, i requires 0 <= i < |fields| => fields[i].name)
  }

  /** The job's top-level fields, in the order the collection declares them. */
  const JobFieldNames: seq<string> :=
    ["input", "taskStatus", "completedAt", "totalTried", "hasError", "error", "log",
     "workflowSlug", "taskSlug", "queue", "waitUntil", "processing", "seenByWorker"]

  /** The field `name` exists, has type `fieldType` and is indexed exactly when `index` says. */
  ghost predicate FieldIs(fields: seq<Field>, name: string, fieldType: FieldType, index: bool) {
    FindField(fields, name).Some? && FindField(fields, name).value.fieldType == fieldType
    && FindField(fields, name).value.index == index
  }

  /** The types of the input and status fields and which of them the database indexes. */
  ghost predicate StatusFieldTypes(fields: seq<Field>) {
    && FieldIs(fields, "input", JsonField(None), false)
    && FieldIs(fields, "completedAt", DateField, true)
    && FieldIs(fields, "totalTried", NumberField, true)
    && FieldIs(fields, "hasError", CheckboxField, true)
    && FieldIs(fields, "error", JsonField(None), false)
  }

  /** The types of the scheduling fields and which of them the database indexes. */
  ghost predicate ScheduleFieldTypes(fields: seq<Field>) {
    && FindField(fields, "workflowSlug").Some? && FindField(fields, "workflowSlug").value.index
    && FindField(fields, "taskSlug").Some? && FindField(fields, "taskSlug").value.index
    && FindField(fields, "queue").Some? && FindField(fields, "queue").value.index
    && FieldIs(fields, "waitUntil", DateField, true)
    && FieldIs(fields, "processing", CheckboxField, true)
    && FieldIs(fields, "seenByWorker", CheckboxField, false)
  }

  /** The top-level fields that declare a default value. */
  const DefaultedFields: set<string> := {"totalTried", "hasError", "queue", "processing", "seenByWorker"}

  /**
   * No top-level field is required, only the fields in `DefaultedFields` have
   * a default, and neither `taskStatus` nor `log` is indexed.
   */
  ghost predicate JobFieldFlags(fields: seq<Field>) {
    && (forall i :: 0 <= i < |fields| ==> !fields[i].required)
    && (forall i :: 0 <= i < |fields| && fields[i].name !in DefaultedFields ==> fields[i].defaultValue.None?)
    && FindField(fields, "taskStatus").Some? && !FindField(fields, "taskStatus").value.index
    && FindField(fields, "log").Some? && !FindField(fields, "log").value.index
  }

  /** What the jobs collection built for `workflows` and `tasks` declares. */
  ghost predicate JobSchema(c: CollectionConfig, workflows: seq<WorkflowConfig>, tasks: seq<TaskConfig>) {
    && c.slug == "payload-jobs"
    && c.adminGroup == "System" && c.hidden
    && c.endpoints == [RunAllJobsEndpoint]
    && (forall i :: 0 <= i < |c.fields| && c.fields[i].name != "taskStatus" ==> !c.fields[i].isVirtual)
    && FieldNames(c.fields) == JobFieldNames
    && StatusFieldTypes(c.fields)
    && ScheduleFieldTypes(c.fields)
    && JobFieldFlags(c.fields)
    && NamesDistinct(c.fields)
    && NewJobDefaults(c.fields)
    && JobSelectOptions(c.fields, workflows, tasks)
    && TaskStatusIsVirtual(c.fields, tasks)
    && SubFields(c.fields, "log").Some?
    && LogEntrySchema(SubFields(c.fields, "log").value, tasks)
    && c.afterRead == [TaskStatusHook]
  }

  lemma LogFieldsTypes(taskSlugs: seq<string>)
    ensures FieldNames(LogFields(taskSlugs)) == LogFieldNames
    ensures NoneVirtual(LogFields(taskSlugs))
    ensures NoneIndexed(LogFields(taskSlugs))
    ensures LogEntryTypes(LogFields(taskSlugs))
  {
    var sub := LogFields(taskSlugs);
    FindFieldAt(sub, "executedAt", 0, 0);
    FindFieldAt(sub, "completedAt", 0, 1);
    FindFieldAt(sub, "taskID", 0, 3);
    FindFieldAt(sub, "input", 0, 4);
    FindFieldAt(sub, "output", 0, 5);
    FindFieldAt(sub, "error", 0, 7);
  }

  lemma LogFieldsRules(sets: SlugSets, workflows: seq<WorkflowConfig>, tasks: seq<TaskConfig>)
    requires SlugSetsOf(sets, workflows, tasks)
    ensures LogEntryRules(LogFields(sets.taskSlugs), tasks)
  {
    var sub := LogFields(sets.taskSlugs);
    FindFieldAt(sub, "executedAt", 0, 0);
    FindFieldAt(sub, "completedAt", 0, 1);
    FindFieldAt(sub, "taskSlug", 0, 2);
    FindFieldAt(sub, "taskID", 0, 3);
    FindFieldAt(sub, "input", 0, 4);
    FindFieldAt(sub, "output", 0, 5);
    FindFieldAt(sub, "state", 0, 6);
    FindFieldAt(sub, "error", 0, 7);
  }

  lemma LogFieldsSchema(sets: SlugSets, workflows: seq<WorkflowConfig>, tasks: seq<TaskConfig>)
    requires SlugSetsOf(sets, workflows, tasks)
    ensures LogEntrySchema(LogFields(sets.taskSlugs), tasks)
  {
    LogFieldsTypes(sets.taskSlugs);
    LogFieldsRules(sets, workflows, tasks);
  }

  lemma JobFieldsDefaults(sets: SlugSets, tasks: seq<TaskConfig>)
    ensures NewJobDefaults(JobFields(sets, tasks))
  {
    var fields := JobFields(sets, tasks);
    FindFieldAt(fields, "totalTried", 0, 3);
    FindFieldAt(fields, "hasError", 0, 4);
    FindFieldAt(fields, "queue", 0, 9);
    FindFieldAt(fields, "processing", 0, 11);
    FindFieldAt(fields, "seenByWorker", 0, 12);
  }

  lemma JobFieldsOptions(sets: SlugSets, workflows: seq<WorkflowConfig>, tasks: seq<TaskConfig>)
    requires SlugSetsOf(sets, workflows, tasks)
    ensures JobSelectOptions(JobFields(sets, tasks), workflows, tasks)
  {
    var fields := JobFields(sets, tasks);
    FindFieldAt(fields, "workflowSlug", 0, 7);
    FindFieldAt(fields, "taskSlug", 0, 8);
    FindFieldAt(fields, "queue", 0, 9);
  }

  lemma JobFieldsLayout(sets: SlugSets, workflows: seq<WorkflowConfig>, tasks: seq<TaskConfig>)
    requires SlugSetsOf(sets, workflows, tasks)
    ensures FieldNames(JobFields(sets, tasks)) == JobFieldNames
    ensures NamesDistinct(JobFields(sets, tasks))
    ensures TaskStatusIsVirtual(JobFields(sets, tasks), tasks)
    ensures SubFields(JobFields(sets, tasks), "log") == Some(LogFields(sets.taskSlugs))
  {
    var fields := JobFields(sets, tasks);
    FindFieldAt(fields, "taskStatus", 0, 1);
    FindFieldAt(fields, "log", 0, 6);
  }

  lemma JobFieldsStatusTypes(sets: SlugSets, tasks: seq<TaskConfig>)
    ensures StatusFieldTypes(JobFields(sets, tasks))
  {
    JobFieldsPayloadTypes(sets, tasks);
    JobFieldsCounterTypes(sets, tasks);
  }

  /** `input` and `error` are unindexed JSON, `completedAt` an indexed date. */
  lemma JobFieldsPayloadTypes(sets: SlugSets, tasks: seq<TaskConfig>)
    ensures var fields := JobFields(sets, tasks);
            && FieldIs(fields, "input", JsonField(None), false)
            && FieldIs(fields, "completedAt", DateField, true)
            && FieldIs(fields, "error", JsonField(None), false)
  {
    var fields := JobFields(sets, tasks);
    FindFieldAt(fields, "input", 0, 0);
    FindFieldAt(fields, "completedAt", 0, 2);
    FindFieldAt(fields, "error", 0, 5);
  }

  /** `totalTried` is an indexed number and `hasError` an indexed checkbox. */
  lemma JobFieldsCounterTypes(sets: SlugSets, tasks: seq<TaskConfig>)
    ensures var fields := JobFields(sets, tasks);
            && FieldIs(fields, "totalTried", NumberField, true)
            && FieldIs(fields, "hasError", CheckboxField, true)
  {
    var fields := JobFields(sets, tasks);
    FindFieldAt(fields, "totalTried", 0, 3);
    FindFieldAt(fields, "hasError", 0, 4);
  }

  lemma JobFieldsScheduleTypes(sets: SlugSets, tasks: seq<TaskConfig>)
    ensures ScheduleFieldTypes(JobFields(sets, tasks))
  {
    var fields := JobFields(sets, tasks);
    FindFieldAt(fields, "workflowSlug", 0, 7);
    FindFieldAt(fields, "taskSlug", 0, 8);
    FindFieldAt(fields, "queue", 0, 9);
    FindFieldAt(fields, "waitUntil", 0, 10);
    FindFieldAt(fields, "processing", 0, 11);
    FindFieldAt(fields, "seenByWorker", 0, 12);
  }

  lemma JobFieldsFlags(sets: SlugSets, tasks: seq<TaskConfig>)
    ensures JobFieldFlags(JobFields(sets, tasks))
  {
    var fields := JobFields(sets, tasks);
    FindFieldAt(fields, "taskStatus", 0, 1);
    FindFieldAt(fields, "log", 0, 6);
  }

  /** The collection built from the collected slug sets declares the job schema. */
  lemma JobsCollectionForSchema(sets: SlugSets, workflows: seq<WorkflowConfig>, tasks: seq<TaskConfig>)
    requires SlugSetsOf(sets, workflows, tasks)
    ensures JobSchema(JobsCollectionFor(sets, tasks), workflows, tasks)
  {
    JobFieldsDefaults(sets, tasks);
    JobFieldsOptions(sets, workflows, tasks);
    JobFieldsLayout(sets, workflows, tasks);
    JobFieldsStatusTypes(sets, tasks);
    JobFieldsScheduleTypes(sets, tasks);
    JobFieldsFlags(sets, tasks);
    LogFieldsSchema(sets, workflows, tasks);
  }

  /**
   * `getDefaultJobsCollection`: no collection when no workflows are
   * configured; otherwise the collected names, or the collision error.
   */
  method GetDefaultJobsCollection(config: Config) returns (r: Result<Option<CollectionConfig>, string>)
    ensures !HasWorkflows(config) ==> r == Success(None)
    ensures HasWorkflows(config) ==>
              (r.Failure? <==> SlugCollision(config.jobs.value.workflows.value, config.jobs.value.tasks))
    ensures r.Failure? ==> (HasWorkflows(config) &&
              exists i :: FirstCollision(config.jobs.value.workflows.value, config.jobs.value.tasks, i)
                       && r.error == CollisionMessage(config.jobs.value.tasks[i].slug))
    ensures HasWorkflows(config) && r.Success? ==>
              r.value.Some? && JobSchema(r.value.value, config.jobs.value.workflows.value, config.jobs.value.tasks)
  {
    if !HasWorkflows(config) {
      return Success(None);
    }
    var workflows := config.jobs.value.workflows.value;
    var tasks := config.jobs.value.tasks;
    var sets :- CollectSlugs(workflows, tasks);
    JobsCollectionForSchema(sets, workflows, tasks);
    r := Success(Some(JobsCollectionFor(sets, tasks)));
  }

  // ---------------------------------------------------------------------
  // Properties of the declared schema
  // ---------------------------------------------------------------------

  /** The task-slug options, top-level and in the log, are `inline` and every task slug. */
  lemma TaskSlugOptions(c: CollectionConfig, workflows: seq<WorkflowConfig>, tasks: seq<TaskConfig>, x: string)
    requires JobSchema(c, workflows, tasks)
    ensures x in SelectOptions(c.fields, "taskSlug").value <==>
            x == "inline" || exists i :: 0 <= i < |tasks| && tasks[i].slug == x
    ensures SelectOptions(SubFields(c.fields, "log").value, "taskSlug") == SelectOptions(c.fields, "taskSlug")
  {
    TaskSlugOptionsIn(c.fields, SubFields(c.fields, "log").value, tasks, x);
  }

  lemma TaskSlugOptionsIn(fields: seq<Field>, sub: seq<Field>, tasks: seq<TaskConfig>, x: string)
    requires OffersInsertionOrderOf(fields, "taskSlug", ["inline"] + TaskSlugs(tasks))
    requires OffersInsertionOrderOf(sub, "taskSlug", ["inline"] + TaskSlugs(tasks))
    ensures x in SelectOptions(fields, "taskSlug").value <==>
            x == "inline" || exists i :: 0 <= i < |tasks| && tasks[i].slug == x
    ensures SelectOptions(sub, "taskSlug") == SelectOptions(fields, "taskSlug")
  {
    var added := ["inline"] + TaskSlugs(tasks);
    InsertionOrderUnique(SelectOptions(sub, "taskSlug").value, SelectOptions(fields, "taskSlug").value, added);
    if x in added && x != "inline" {
      var k :| 0 <= k < |added| && added[k] == x;
      assert tasks[k - 1].slug == x;
    }
    if exists i :: 0 <= i < |tasks| && tasks[i].slug == x {
      var i :| 0 <= i < |tasks| && tasks[i].slug == x;
      assert added[i + 1] == x;
    }
  }

  /** The queue options are `default` and the queue of every workflow that names one. */
  lemma QueueOptions(c: CollectionConfig, workflows: seq<WorkflowConfig>, tasks: seq<TaskConfig>, q: string)
    requires JobSchema(c, workflows, tasks)
    ensures q in SelectOptions(c.fields, "queue").value <==>
            q == "default" || exists i :: 0 <= i < |workflows| && workflows[i].queue == Some(q) && q != ""
  {
    QueuesAddedMembers(workflows, q);
  }

  /** The workflow-slug options are exactly the workflow slugs. */
  lemma WorkflowSlugOptions(c: CollectionConfig, workflows: seq<WorkflowConfig>, tasks: seq<TaskConfig>, x: string)
    requires JobSchema(c, workflows, tasks)
    ensures x in SelectOptions(c.fields, "workflowSlug").value <==> exists w :: w in workflows && w.slug == x
  {
    if x in WorkflowSlugs(workflows) {
      var k :| 0 <= k < |workflows| && WorkflowSlugs(workflows)[k] == x;
      assert workflows[k] in workflows;
    }
    if exists w :: w in workflows && w.slug == x {
      var w :| w in workflows && w.slug == x;
      var k :| 0 <= k < |workflows| && workflows[k] == w;
      assert WorkflowSlugs(workflows)[k] == x;
    }
  }

  /** The status schema has one property per task slug and `inline`, which always imports `any`. */
  lemma TaskStatusSchemaKeys(tasks: seq<TaskConfig>)
    ensures TaskStatusSchema(tasks).Keys == {"inline"} + set t | t in tasks :: t.slug
    ensures TaskStatusSchema(tasks)["inline"] == StatusImport("any")
    ensures forall k :: k in TaskStatusSchema(tasks) && k != "inline" ==>
              TaskStatusSchema(tasks)[k] == StatusImport("\"" + k + "\"")
  {
    var slugs := TaskSlugs(tasks);
    forall k ensures k in slugs <==> k in set t | t in tasks :: t.slug {
      if k in slugs {
        var i :| 0 <= i < |slugs| && slugs[i] == k;
        assert tasks[i] in tasks;
      }
      if k in set t | t in tasks :: t.slug {
        var t :| t in tasks && t.slug == k;
        var i :| 0 <= i < |tasks| && tasks[i] == t;
        assert slugs[i] == k;
      }
    }
  }

  // ---------------------------------------------------------------------
  // The job document and its afterRead hook
  // ---------------------------------------------------------------------

  /** A job document as read from the `payload-jobs` collection. */
  class JobDocument {
    var input: Option<Json>
    var taskStatus: Option<Json>
    var completedAt: Option<nat>
    var totalTried: int
    var hasError: bool
    var error: Option<Json>
    var log: seq<JobLog>
    var workflowSlug: Option<string>
    var taskSlug: Option<string>
    var queue: string
    var waitUntil: Option<nat>
    var processing: bool
    var seenByWorker: bool
  }

  /**
   * The collection's `afterRead` hook: overwrites the virtual `taskStatus`
   * with the status computed from the log, in place, and returns the same
   * document. `getJobTaskStatus` is not part of this model and is passed in.
   */
  method AfterReadHook(doc: JobDocument, tasksConfig: seq<TaskConfig>,
                       getJobTaskStatus: (seq<JobLog>, seq<TaskConfig>) -> Json)
    returns (r: JobDocument)
    modifies doc
    ensures r == doc
    ensures doc.taskStatus == Some(getJobTaskStatus(old(doc.log), tasksConfig))
    ensures doc.input == old(doc.input) && doc.completedAt == old(doc.completedAt)
    ensures doc.totalTried == old(doc.totalTried) && doc.hasError == old(doc.hasError)
    ensures doc.error == old(doc.error) && doc.log == old(doc.log)
    ensures doc.workflowSlug == old(doc.workflowSlug) && doc.taskSlug == old(doc.taskSlug)
    ensures doc.queue == old(doc.queue) && doc.waitUntil == old(doc.waitUntil)
    ensures doc.processing == old(doc.processing) && doc.seenByWorker == old(doc.seenByWorker)
  {
    doc.taskStatus := Some(getJobTaskStatus(doc.log, tasksConfig));
    return doc;
  }
}
