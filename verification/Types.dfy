/** The persisted state: a Tekton Run and its status, the status fields this controller keeps in
    it, and the JobRuns of Code Engine, all as values.  The operations of the Tekton status that
    the controller calls are here too, as small functions. */
module Types {

  datatype Option<+T> = None | Some(value: T)

  /** Instants.  `ZERO_TIME` is the zero value, which counts as "not set". */
  type Time = nat
  const ZERO_TIME: Time := 0

  const API_VERSION := "custom.tekton.dev/v1alpha1"
  const CUSTOM_TASK_KIND := "CodeEngineTask"
  const OWNER_LABEL := "custom.tekton.dev/runOwner"
  const OWNER_NAMESPACE_LABEL := "custom.tekton.dev/runNamespace"

  // The Run: what a user writes.

  datatype TaskSpec = TaskSpec(jobName: string)

  /** The raw bytes of an embedded spec: either they unmarshal or they do not. */
  datatype RawSpec = Parsed(task: TaskSpec) | Unparsable

  datatype TaskRef = TaskRef(apiVersion: string, kind: string, name: string)
  datatype EmbeddedSpec = EmbeddedSpec(apiVersion: string, kind: string, raw: RawSpec,
                                       labels: Option<map<string, string>>,
                                       annotations: Option<map<string, string>>)
  datatype RunSpec = RunSpec(ref: Option<TaskRef>, embedded: Option<EmbeddedSpec>)
  datatype RunInfo = RunInfo(namespace: string, name: string, creation: Time, spec: RunSpec)

  // The Run status: what the controller writes.

  datatype Truth = Unknown | True | False

  datatype Reason =
    | Started
    | Running
    | Failed
    | Succeeded
    | CouldntGetTask
    | FailedToStartJobRun
    | FailedToGetJobRunStatus

  datatype Condition = Condition(truth: Truth, reason: Reason)

  /** The decoded extra fields.  An empty `jobRunName` means that no job run is recorded. */
  datatype TaskStatus = TaskStatus(spec: Option<TaskSpec>, jobRunName: string)

  /** The extra fields as stored.  `Fields` stands for bytes that decode to the given value. */
  datatype ExtraFields = NoExtra | Fields(status: TaskStatus) | Garbled

  datatype RunStatus = RunStatus(condition: Option<Condition>, startTime: Option<Time>, extra: ExtraFields)

  const EMPTY_STATUS := RunStatus(None, None, NoExtra)

  predicate HasStarted(st: RunStatus) {
    st.startTime.Some? && st.startTime.value != ZERO_TIME
  }

  /** A missing condition counts as unknown. */
  predicate Terminal(c: Option<Condition>) {
    c.Some? && !c.value.truth.Unknown?
  }

  predicate IsDone(st: RunStatus) {
    Terminal(st.condition)
  }

  function Mark(st: RunStatus, truth: Truth, reason: Reason): RunStatus {
    st.(condition := Some(Condition(truth, reason)))
  }

  function RecordedName(st: RunStatus): string {
    if st.extra.Fields? then st.extra.status.jobRunName else ""
  }

  predicate Recorded(st: RunStatus) {
    RecordedName(st) != ""
  }

  // The JobRuns of Code Engine.

  /** The names the server generates are never empty. */
  type Name = s: string | s != "" witness "a"

  /** What `CheckCondition` answers for the two terminal conditions of a job run. */
  datatype Phase = Phase(complete: bool, failed: bool)

  datatype JobRun = JobRun(labels: map<string, string>, definition: string, phase: Phase)

  predicate Finished(p: Phase) {
    p.complete || p.failed
  }

  /** Conditions of a job run are only ever added. */
  predicate NotAfter(p: Phase, q: Phase) {
    (p.complete ==> q.complete) && (p.failed ==> q.failed)
  }

  function OwnerLabels(run: RunInfo): map<string, string> {
    map[OWNER_LABEL := run.name, OWNER_NAMESPACE_LABEL := run.namespace]
  }

  predicate OwnedBy(run: RunInfo, job: JobRun) {
    && OWNER_LABEL in job.labels && job.labels[OWNER_LABEL] == run.name
    && OWNER_NAMESPACE_LABEL in job.labels && job.labels[OWNER_NAMESPACE_LABEL] == run.namespace
  }
}
