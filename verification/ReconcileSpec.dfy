/** One reconcile as a function of the Run it reads and of what its environment answers.  It has
    two halves, because other actors may move between them: the first ends after the job run has
    been created, the second looks the job run up and encodes the result. */
module ReconcileSpec {
  import opened Types

  datatype Error =
    | Panicked
    | DecodeError
    | UnparsableSpec
    | MissingTask
    | RequeueNow
    | MissingJobDefinition
    | CreateError
    | LookupError
    | EncodeError

  /** What the API server does with a create request.  `ResponseLost`: the job run exists, but the
      caller gets an error. */
  datatype CreateAnswer = Created(name: Name) | ResponseLost(name: Name) | Refused

  /** What the first half sees: the clock, the task lister's answer for the referenced name, whether
      the memo of created job runs holds this Run, the known job definitions, and the create. */
  datatype LaunchView = LaunchView(now: Time, task: Option<TaskSpec>, memoHit: bool,
                                   definitions: set<string>, create: CreateAnswer)

  /** What the second half sees: the job run cache, and failures of the lookup and of the encoder. */
  datatype CheckView = CheckView(cache: map<string, Phase>, lookupFails: bool, encodeFails: bool)

  datatype Views = Views(launch: LaunchView, check: CheckView)

  datatype Gate = Accepted | Rejected | Panics

  datatype Creation = Creation(name: Name, job: JobRun)

  /** State after the first half: it has returned already, or it goes on to the status check. */
  datatype Launch =
    | Stopped(status: RunStatus, error: Option<Error>, created: Option<Creation>)
    | Launched(status: RunStatus, task: TaskStatus, created: Option<Creation>)

  datatype Outcome = Outcome(status: RunStatus, error: Option<Error>, created: Option<Creation>)

  datatype Emission = Emission(before: Option<Condition>, after: Option<Condition>)

  // ---------- The stages, in the order of the code ----------

  predicate Ours(apiVersion: string, kind: string) {
    apiVersion == API_VERSION && kind == CUSTOM_TASK_KIND
  }

  /** Rejecting an embedded spec logs the reference, and dereferences it even when it is nil. */
  function GateOf(spec: RunSpec): Gate {
    if spec.ref.None? && spec.embedded.None? then Rejected
    else if spec.ref.Some? && !Ours(spec.ref.value.apiVersion, spec.ref.value.kind) then Rejected
    else if spec.embedded.Some? && !Ours(spec.embedded.value.apiVersion, spec.embedded.value.kind) then
      if spec.ref.None? then Panics else Rejected
    else Accepted
  }

  function Initialize(run: RunInfo, st: RunStatus, now: Time): RunStatus {
    var truth := if st.condition.None? then Unknown else st.condition.value.truth;
    RunStatus(Some(Condition(truth, Started)),
              Some(if now < run.creation then run.creation else now),
              st.extra)
  }

  function Begin(run: RunInfo, st: RunStatus, now: Time): RunStatus {
    if HasStarted(st) then st else Initialize(run, st, now)
  }

  datatype TaskAnswer = Task(spec: TaskSpec) | NoTask(status: RunStatus, error: Error)

  function GetTask(run: RunInfo, st: RunStatus, task: Option<TaskSpec>): TaskAnswer {
    if run.spec.embedded.Some? then
      match run.spec.embedded.value.raw
      case Parsed(spec) => Task(spec)
      case Unparsable => NoTask(st, UnparsableSpec)
    else if run.spec.ref.Some? && run.spec.ref.value.name != "" && task.Some? then
      Task(task.value)
    else
      NoTask(Mark(st, False, CouldntGetTask), MissingTask)
  }

  function StoreSpec(ts: TaskStatus, spec: TaskSpec): TaskStatus {
    if ts.spec.None? then ts.(spec := Some(spec)) else ts
  }

  function NewJobRun(run: RunInfo, jobName: string): JobRun {
    JobRun(OwnerLabels(run), jobName, Phase(false, false))
  }

  function RunJob(run: RunInfo, st: RunStatus, ts: TaskStatus, view: LaunchView): Launch
    requires ts.spec.Some?
  {
    var jobName := ts.spec.value.jobName;
    if ts.jobRunName != "" then Launched(st, ts, None)
    else if view.memoHit then Stopped(st, Some(RequeueNow), None)
    else if jobName !in view.definitions then
      Stopped(Mark(st, False, FailedToStartJobRun), Some(MissingJobDefinition), None)
    else match view.create
      case Refused => Stopped(Mark(st, False, FailedToStartJobRun), Some(CreateError), None)
      case ResponseLost(name) =>
        Stopped(Mark(st, False, FailedToStartJobRun), Some(CreateError), Some(Creation(name, NewJobRun(run, jobName))))
      case Created(name) =>
        Launched(Mark(st, Unknown, Running), ts.(jobRunName := name), Some(Creation(name, NewJobRun(run, jobName))))
  }

  function Decoded(extra: ExtraFields): Option<TaskStatus> {
    match extra
    case NoExtra => Some(TaskStatus(None, ""))
    case Fields(ts) => Some(ts)
    case Garbled => None
  }

  function LaunchTask(run: RunInfo, st: RunStatus, ts: TaskStatus, view: LaunchView): Launch {
    match GetTask(run, st, view.task)
    case NoTask(marked, error) => Stopped(marked, Some(error), None)
    case Task(spec) => RunJob(run, st, StoreSpec(ts, spec), view)
  }

  function LaunchRun(run: RunInfo, st: RunStatus, view: LaunchView): Launch {
    match GateOf(run.spec)
    case Panics => Stopped(st, Some(Panicked), None)
    case Rejected => Stopped(st, None, None)
    case Accepted =>
      var begun := Begin(run, st, view.now);
      if IsDone(begun) then Stopped(begun, None, None)
      else if Decoded(begun.extra).None? then Stopped(Mark(begun, False, Failed), Some(DecodeError), None)
      else LaunchTask(run, begun, Decoded(begun.extra).value, view)
  }

  /** A job run that is complete and failed is marked twice; the second mark stays. */
  function Judge(st: RunStatus, p: Phase): RunStatus {
    var judged := if p.complete then Mark(st, True, Succeeded) else st;
    if p.failed then Mark(judged, False, Failed) else judged
  }

  function CheckJob(st: RunStatus, ts: TaskStatus, view: CheckView): Outcome {
    if ts.jobRunName == "" then Outcome(st, None, None)
    else if view.lookupFails then Outcome(Mark(st, Unknown, FailedToGetJobRunStatus), Some(LookupError), None)
    else if ts.jobRunName in view.cache then Outcome(Judge(st, view.cache[ts.jobRunName]), None, None)
    else Outcome(st, None, None)
  }

  function Encode(st: RunStatus, ts: TaskStatus, view: CheckView): Outcome {
    if view.encodeFails then Outcome(Mark(st, False, Failed), Some(EncodeError), None)
    else Outcome(st.(extra := Fields(ts)), None, None)
  }

  /** An error of the status check returns before the encoding, so what was decoded is dropped. */
  function Finish(launch: Launch, view: CheckView): Outcome {
    match launch
    case Stopped(st, error, created) => Outcome(st, error, created)
    case Launched(st, ts, created) =>
      var checked := CheckJob(st, ts, view);
      if checked.error.Some? then checked.(created := created)
      else Encode(checked.status, ts, view).(created := created)
  }

  function Reconcile(run: RunInfo, st: RunStatus, views: Views): Outcome {
    Finish(LaunchRun(run, st, views.launch), views.check)
  }

  /** The calls of `events.Emit` in one reconcile. */
  function Emissions(run: RunInfo, st: RunStatus, views: Views): seq<Emission> {
    if !GateOf(run.spec).Accepted? then []
    else
      (if HasStarted(st) then [] else [Emission(None, Initialize(run, st, views.launch.now).condition)])
      + [Emission(st.condition, Reconcile(run, st, views).status.condition)]
  }
}
