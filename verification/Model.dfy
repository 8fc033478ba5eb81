/** Workflow definitions and the event-sourced snapshot of one workflow instance. */
module Model {
  import opened Prelude
  import opened JsonValues
  import opened AttemptIds

  type TaskId = string
  type HostId = string

  datatype WorkflowStatus = Pending | Running | Paused | InputNeeded | Completed | Failed

  datatype TaskStatus = Pending | Running | InputNeeded(inputRequest: string) | Completed | Skipped | Failed

  datatype Satisfaction = Pending | Satisfied | Unsatisfied

  datatype TaskInputMapping = TaskInputMapping(taskId: TaskId, generation: nat)

  datatype VerifierDecision = Continue | Complete

  datatype VerifierAttemptStatus = Accepted | Rejected | ExhaustedAccepted | ExhaustedFailed | Invalid

  datatype VerifierMetadata = VerifierMetadata(
    status: VerifierAttemptStatus,
    decision: Option<VerifierDecision>,
    feedback: Option<string>,
    verifierOutput: Option<Json>,
    exitReason: Option<string>)

  datatype TaskInstance = TaskInstance(
    taskDefId: TaskId,
    status: TaskStatus,
    satisfaction: Satisfaction,
    earlyExit: bool,
    humanInput: Option<Json>,
    inputData: seq<Json>,
    inputMapping: seq<TaskInputMapping>,
    outputData: Option<Json>,
    generationIndex: nat,
    verifierMetadata: Option<VerifierMetadata>)

  datatype VerifierStateStatus = Running | Accepted | ExhaustedAccepted | ExhaustedFailed | Failed

  datatype FeedbackEntry = FeedbackEntry(generationIndex: nat, feedback: string, verifierOutput: Json)

  datatype VerifierState = VerifierState(
    verifierTaskId: TaskId,
    rerunStartTaskId: TaskId,
    latestGeneration: nat,
    selectedGeneration: Option<nat>,
    feedbackHistory: seq<FeedbackEntry>,
    status: VerifierStateStatus,
    exitReason: Option<string>)
  {
    /** The loop has chosen a generation: its slice may feed downstream tasks. */
    predicate Settled() {
      status.Accepted? || status.ExhaustedAccepted?
    }
  }

  datatype WorkflowInstance = WorkflowInstance(
    id: string,
    workflowDefId: string,
    version: nat,
    status: WorkflowStatus,
    triggerInput: Option<Json>,
    pinnedWorkerHost: Option<HostId>,
    tasks: map<AttemptId, TaskInstance>,
    verifierStates: map<TaskId, VerifierState>)

  datatype VerifierConfig = VerifierConfig(
    maxIterations: nat,
    onExhaustedContinue: bool,
    rerunFromTaskId: Option<TaskId>)

  /** `effectiveOutputSchema` is the user schema extended with the reserved control fields. */
  datatype TaskDef = TaskDef(
    id: TaskId,
    allowEarlyExit: bool,
    verifier: Option<VerifierConfig>,
    inputSchemas: seq<Json>,
    outputSchema: Option<Json>,
    effectiveOutputSchema: Option<Json>)
  {
    /** `verifier_rerun_start_task_id` */
    function RerunStart(): TaskId
      requires verifier.Some?
    {
      verifier.value.rerunFromTaskId.GetOr(id)
    }
  }

  datatype DataBinding = DataBinding(source: TaskId, target: TaskId)

  datatype WorkflowDef = WorkflowDef(id: string, tasks: seq<TaskDef>, dataBindings: seq<DataBinding>)

  function TaskIds(def: WorkflowDef): set<TaskId> {
    set i | 0 <= i < |def.tasks| :: def.tasks[i].id
  }

  /** `def.tasks.iter().find(|task| task.id == id)` */
  function FindTask(tasks: seq<TaskDef>, id: TaskId): (r: Option<TaskDef>)
    ensures r.Some? ==> r.value in tasks && r.value.id == id
    ensures r.None? ==> forall t :: t in tasks ==> t.id != id
  {
    if tasks == [] then None
    else if tasks[0].id == id then Some(tasks[0])
    else FindTask(tasks[1..], id)
  }

  lemma {:induction false} FindUnique(tasks: seq<TaskDef>, task: TaskDef)
    requires task in tasks
    requires forall i, j :: 0 <= i < j < |tasks| ==> tasks[i].id != tasks[j].id
    ensures FindTask(tasks, task.id) == Some(task)
  {
    if tasks[0] != task {
      assert task in tasks[1..];
      FindUnique(tasks[1..], task);
    }
  }

  function VerifierOf(def: WorkflowDef, id: TaskId): Option<VerifierConfig> {
    match FindTask(def.tasks, id)
    case Some(task) => task.verifier
    case None => None
  }

  /** The statuses an engine may run a workflow in. */
  predicate MayRun(status: WorkflowStatus) {
    status.Pending? || status.Running?
  }

  function RunningIds(tasks: map<AttemptId, TaskInstance>): set<AttemptId> {
    set id | id in tasks && tasks[id].status.Running?
  }
}
