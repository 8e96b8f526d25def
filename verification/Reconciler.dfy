/** The reconciler as it works: it changes the Run's status and the decoded status step by step, and
    creates job runs.  Every method is proved against its stage of `ReconcileSpec`. */
module Reconciler {
  import opened Types
  import opened ReconcileSpec
  import opened ReconcileProperties
  import opened TaskObjects
  import Lister

  /** A Run with the status that is written back when the reconcile returns. */
  class Run {
    const info: RunInfo
    var condition: Option<Condition>
    var startTime: Option<Time>
    var extraFields: ExtraFields

    constructor (info: RunInfo, status: RunStatus)
      ensures this.info == info && Status() == status
      ensures condition == status.condition && startTime == status.startTime && extraFields == status.extra
    {
      this.info := info;
      condition, startTime, extraFields := status.condition, status.startTime, status.extra;
    }

    function Status(): RunStatus
      reads this
    {
      RunStatus(condition, startTime, extraFields)
    }

    method MarkRun(truth: Truth, reason: Reason)
      modifies this`condition
      ensures condition == Some(Condition(truth, reason)) && Status() == Mark(old(Status()), truth, reason)
    {
      condition := Some(Condition(truth, reason));
    }

    /** Sets the start time if there is none, and the condition, keeping its truth if it has one. */
    method InitializeConditions(now: Time)
      modifies this`condition, this`startTime
      ensures startTime == if HasStarted(old(Status())) then old(startTime) else Some(now)
      ensures condition ==
        if HasStarted(old(Status())) then
          if old(condition).None? then Some(Condition(Unknown, Started)) else old(condition)
        else
          Some(Condition(if old(condition).None? then Unknown else old(condition).value.truth, Started))
    {
      var started := startTime.None? || startTime.value == ZERO_TIME;
      if started {
        startTime := Some(now);
      }
      if condition.None? {
        condition := Some(Condition(Unknown, Started));
      }
      if started {
        condition := Some(condition.value.(reason := Started));
      }
    }
  }

  /** Where the events go. */
  class Recorder {
    var emitted: seq<Emission>

    constructor ()
      ensures emitted == []
    {
      emitted := [];
    }

    method Emit(before: Option<Condition>, after: Option<Condition>)
      modifies this
      ensures emitted == old(emitted) + [Emission(before, after)]
    {
      emitted := emitted + [Emission(before, after)];
    }
  }

  function WithCreated(jobs: map<string, JobRun>, created: Option<Creation>): map<string, JobRun> {
    if created.Some? then jobs[created.value.name := created.value.job] else jobs
  }

  /** The job runs of the Code Engine project. */
  class JobRunsClient {
    var jobs: map<string, JobRun>

    constructor ()
      ensures jobs == map[]
    {
      jobs := map[];
    }

    method Create(job: JobRun, answer: CreateAnswer) returns (name: Option<Name>)
      modifies this
      ensures name == if answer.Created? then Some(answer.name) else None
      ensures jobs == if answer.Refused? then old(jobs) else old(jobs)[answer.name := job]
    {
      match answer
      case Refused => name := None;
      case ResponseLost(made) => jobs, name := jobs[made := job], None;
      case Created(made) => jobs, name := jobs[made := job], Some(made);
    }
  }

  function Stored(status: CodeEngineTaskStatus): TaskStatus
    reads status, status.codeEngineTaskSpec
  {
    TaskStatus(if status.codeEngineTaskSpec == null then None else Some(status.codeEngineTaskSpec.Value()),
               status.jobRunName)
  }

  /** A fresh status with what the extra fields decode to. */
  method DecodeStatusFromRun(run: Run) returns (status: CodeEngineTaskStatus?, error: Option<Error>)
    modifies run`condition
    ensures Decoded(old(run.extraFields)).Some? ==>
      && status != null && error == None && run.Status() == old(run.Status())
      && fresh(status) && (status.codeEngineTaskSpec != null ==> fresh(status.codeEngineTaskSpec))
      && Stored(status) == Decoded(old(run.extraFields)).value
    ensures Decoded(old(run.extraFields)).None? ==>
      status == null && error == Some(DecodeError) && run.Status() == Mark(old(run.Status()), False, Failed)
    ensures status == null <==> old(run.extraFields).Garbled?
    ensures status != null ==>
      && status.jobRunName == (if old(run.extraFields).Fields? then old(run.extraFields).status.jobRunName else "")
      && (status.codeEngineTaskSpec != null <==>
            old(run.extraFields).Fields? && old(run.extraFields).status.spec.Some?)
      && (status.codeEngineTaskSpec != null ==>
            status.codeEngineTaskSpec.jobName == old(run.extraFields).status.spec.value.jobName)
  {
    if run.extraFields.Garbled? {
      run.MarkRun(False, Failed);
      return null, Some(DecodeError);
    }
    var decoded := new CodeEngineTaskStatus();
    if run.extraFields.Fields? {
      if run.extraFields.status.spec.Some? {
        decoded.codeEngineTaskSpec := new CodeEngineTaskSpec(run.extraFields.status.spec.value.jobName);
      }
      decoded.jobRunName := run.extraFields.status.jobRunName;
    }
    return decoded, None;
  }

  method EncodeIntoRun(run: Run, status: CodeEngineTaskStatus, view: CheckView) returns (error: Option<Error>)
    modifies run`condition, run`extraFields
    ensures Outcome(run.Status(), error, None) == Encode(old(run.Status()), Stored(status), view)
    ensures view.encodeFails ==>
      error == Some(EncodeError) && run.condition == Some(Condition(False, Failed))
      && run.extraFields == old(run.extraFields)
    ensures !view.encodeFails ==>
      && error == None && run.condition == old(run.condition) && run.extraFields.Fields?
      && run.extraFields.status.jobRunName == status.jobRunName
      && (status.codeEngineTaskSpec != null ==>
            run.extraFields.status.spec == Some(TaskSpec(status.codeEngineTaskSpec.jobName)))
      && (status.codeEngineTaskSpec == null ==> run.extraFields.status.spec == None)
  {
    if view.encodeFails {
      run.MarkRun(False, Failed);
      return Some(EncodeError);
    }
    run.extraFields := Fields(Stored(status));
    return None;
  }

  /** The status then shares the spec with the task it came from. */
  method StoreCodeEngineTaskSpec(status: CodeEngineTaskStatus, spec: CodeEngineTaskSpec)
    modifies status`codeEngineTaskSpec
    ensures Stored(status) == StoreSpec(old(Stored(status)), old(spec.Value()))
    ensures status.codeEngineTaskSpec ==
      if old(status.codeEngineTaskSpec) == null then spec else old(status.codeEngineTaskSpec)
  {
    if status.codeEngineTaskSpec == null {
      status.codeEngineTaskSpec := spec;
    }
  }

  /** What a reconcile adds to the job runs. */
  lemma ReconcileCreates(run: RunInfo, st: RunStatus, views: Views, jobs: map<string, JobRun>)
    ensures WithCreated(jobs, Reconcile(run, st, views).created) ==
      if WantsJobRun(run, st, views.launch) && !views.launch.create.Refused? then
        jobs[views.launch.create.name :=
          JobRun(map[OWNER_LABEL := run.name, OWNER_NAMESPACE_LABEL := run.namespace],
                 ChosenSpec(run, st, views.launch).value.jobName, Phase(false, false))]
      else jobs
  {
    CreatesExactlyWhenWanted(run, st, views);
  }

  /** A name that is new in the extra fields is that of a job run just made. */
  lemma ReconcileRecords(run: RunInfo, st: RunStatus, views: Views, jobs: map<string, JobRun>)
    ensures var out := Reconcile(run, st, views);
      out.status.extra != st.extra ==>
        && out.error == None && out.status.extra.Fields? && out.status.extra.status.spec.Some?
        && var name := out.status.extra.status.jobRunName;
           if RecordedName(st) != "" then name == RecordedName(st)
           else
             var after := WithCreated(jobs, out.created);
             && name in after && OwnedBy(run, after[name])
             && after[name].definition == out.status.extra.status.spec.value.jobName
  {
    ExtraFieldsAreExact(run, st, views);
    CreatesExactlyWhenWanted(run, st, views);
  }

  lemma ReconcileStarts(run: RunInfo, st: RunStatus, views: Views)
    ensures GateOf(run.spec).Accepted? && !HasStarted(st) ==>
      Reconcile(run, st, views).status.startTime ==
        Some(if views.launch.now < run.creation then run.creation else views.launch.now)
  {
    if GateOf(run.spec).Accepted? {
      StartTimeIsLatest(run, st, views);
    }
  }

  lemma SilentMemoLetsPass(run: RunInfo, st: RunStatus, views: Views)
    ensures Reconcile(run, st, views).error == Some(RequeueNow) ==> views.launch.memoHit
  {
  }

  /** What the environment answers during one reconcile, other than through the reconciler's own
      listers and memo. */
  datatype World = World(now: Time, definitions: set<string>, create: CreateAnswer, check: CheckView)

  class Reconciler {
    const tasks: Lister.Indexer
    const jobRunsClient: JobRunsClient
    const recorder: Recorder
    /** Expiry of each entry of the memo.  Nothing here ever adds one. */
    var createdJobRuns: map<string, Time>

    constructor (tasks: Lister.Indexer, jobRunsClient: JobRunsClient, recorder: Recorder)
      ensures this.tasks == tasks && this.jobRunsClient == jobRunsClient && this.recorder == recorder
      ensures createdJobRuns == map[]
    {
      this.tasks, this.jobRunsClient, this.recorder := tasks, jobRunsClient, recorder;
      createdJobRuns := map[];
    }

    function MemoHit(info: RunInfo, now: Time): bool
      reads this
    {
      var key := Lister.LookupKey(info.namespace, info.name);
      key in createdJobRuns && now <= createdJobRuns[key]
    }

    /** What the task lister answers for the Run's reference. */
    function ListedTask(info: RunInfo): Option<TaskSpec>
      reads tasks, tasks.items.Values, set t <- tasks.items.Values :: t.spec
    {
      if info.spec.ref.None? then None
      else
        var key := Lister.LookupKey(info.namespace, info.spec.ref.value.name);
        if key in tasks.items then Some(tasks.items[key].spec.Value()) else None
    }

    function LaunchViewOf(info: RunInfo, world: World): LaunchView
      reads this, tasks, tasks.items.Values, set t <- tasks.items.Values :: t.spec
    {
      LaunchView(world.now, ListedTask(info), MemoHit(info, world.now), world.definitions, world.create)
    }

    method VerifyCodeEngineSpec(run: Run) returns (gate: Gate)
      ensures gate == GateOf(run.info.spec)
      ensures var ref, embedded := run.info.spec.ref, run.info.spec.embedded;
        && (gate.Accepted? <==>
              && (ref.Some? || embedded.Some?)
              && (ref.Some? ==> ref.value.apiVersion == API_VERSION && ref.value.kind == CUSTOM_TASK_KIND)
              && (embedded.Some? ==>
                    embedded.value.apiVersion == API_VERSION && embedded.value.kind == CUSTOM_TASK_KIND))
        && (gate.Panics? <==>
              && ref.None? && embedded.Some?
              && (embedded.value.apiVersion != API_VERSION || embedded.value.kind != CUSTOM_TASK_KIND))
    {
      var spec := run.info.spec;
      if spec.embedded.None? && spec.ref.None? {
        return Rejected;
      }
      if spec.ref.Some?
         && (spec.ref.value.apiVersion != API_VERSION || spec.ref.value.kind != CUSTOM_TASK_KIND) {
        return Rejected;
      }
      if spec.embedded.Some?
         && (spec.embedded.value.apiVersion != API_VERSION || spec.embedded.value.kind != CUSTOM_TASK_KIND) {
        if spec.ref.None? {
          return Panics;
        }
        return Rejected;
      }
      return Accepted;
    }

    method InitializeRun(run: Run, now: Time)
      requires !HasStarted(run.Status())
      modifies run`condition, run`startTime, recorder
      ensures run.Status() == Initialize(run.info, old(run.Status()), now)
      ensures run.startTime == Some(if now < run.info.creation then run.info.creation else now)
      ensures run.condition.Some? && run.condition.value.reason == Started
      ensures run.condition.value.truth ==
        if old(run.condition).None? then Unknown else old(run.condition).value.truth
      ensures recorder.emitted == old(recorder.emitted) + [Emission(None, run.condition)]
    {
      run.InitializeConditions(now);
      if run.startTime.value < run.info.creation {
        run.startTime := Some(run.info.creation);
      }
      recorder.Emit(None, run.condition);
    }

    /** The task of the lister itself, not a copy; or a new one, built from the embedded spec with its
        type and metadata. */
    method GetCodeEngineTask(run: Run) returns (task: CodeEngineTask?, error: Option<Error>)
      modifies run`condition
      ensures match GetTask(run.info, old(run.Status()), old(ListedTask(run.info)))
        case Task(spec) =>
          && task != null && error == None && run.Status() == old(run.Status())
          && task.spec.Value() == spec
        case NoTask(marked, err) =>
          task == null && error == Some(err) && run.Status() == marked
      ensures task != null && run.info.spec.embedded.None? ==>
        var key := run.info.namespace + "/" + if run.info.spec.ref.Some? then run.info.spec.ref.value.name else "";
        key in tasks.items && task == tasks.items[key]
      ensures task != null && run.info.spec.embedded.Some? ==>
        var given := run.info.spec.embedded.value;
        && fresh(task.Footprint()) && given.raw.Parsed?
        && task.Value() == TaskValue(TypeMeta(given.kind, given.apiVersion), "", "", given.labels, given.annotations,
                                     given.raw.task, NO_STATUS)
    {
      if run.info.spec.embedded.Some? {
        match run.info.spec.embedded.value.raw {
          case Unparsable =>
            return null, Some(UnparsableSpec);
          case Parsed(spec) =>
            var built := new CodeEngineTask();
            built.typeMeta :=
              TypeMeta(run.info.spec.embedded.value.kind, run.info.spec.embedded.value.apiVersion);
            built.labels := NewMap(run.info.spec.embedded.value.labels);
            built.annotations := NewMap(run.info.spec.embedded.value.annotations);
            built.spec.jobName := spec.jobName;
            return built, None;
        }
      } else if run.info.spec.ref.Some? && run.info.spec.ref.value.name != "" {
        var lister := new Lister.CodeEngineTaskNamespaceLister(tasks, run.info.namespace);
        var answer := lister.Get(run.info.spec.ref.value.name);
        if answer.NotFound? {
          run.MarkRun(False, CouldntGetTask);
          return null, Some(MissingTask);
        }
        return answer.value, None;
      } else {
        run.MarkRun(False, CouldntGetTask);
        return null, Some(MissingTask);
      }
    }

    method RunCodeEngineJob(run: Run, status: CodeEngineTaskStatus, world: World) returns (error: Option<Error>)
      requires status.codeEngineTaskSpec != null
      modifies run`condition, status`jobRunName, jobRunsClient
      ensures
        var launch := RunJob(run.info, old(run.Status()), old(Stored(status)), old(LaunchViewOf(run.info, world)));
        && run.Status() == launch.status
        && jobRunsClient.jobs == WithCreated(old(jobRunsClient.jobs), launch.created)
        && match launch
           case Stopped(_, err, _) => error == err
           case Launched(_, ts, _) => error == None && Stored(status) == ts
      ensures
        var key, jobName := run.info.namespace + "/" + run.info.name, old(status.codeEngineTaskSpec.jobName);
        var asks :=
          && old(status.jobRunName) == "" && jobName in world.definitions
          && !(key in createdJobRuns && world.now <= createdJobRuns[key]);
        var labels := map[OWNER_LABEL := run.info.name, OWNER_NAMESPACE_LABEL := run.info.namespace];
        && jobRunsClient.jobs == (
             if asks && !world.create.Refused? then
               old(jobRunsClient.jobs)[world.create.name := JobRun(labels, jobName, Phase(false, false))]
             else old(jobRunsClient.jobs))
        && status.jobRunName == (if asks && world.create.Created? then world.create.name else old(status.jobRunName))
    {
      if status.jobRunName == "" {
        var cacheKey := run.info.namespace + "/" + run.info.name;
        if cacheKey in createdJobRuns && world.now <= createdJobRuns[cacheKey] {
          return Some(RequeueNow);
        }
        var jobName := status.codeEngineTaskSpec.jobName;
        if jobName !in world.definitions {
          run.MarkRun(False, FailedToStartJobRun);
          return Some(MissingJobDefinition);
        }
        var labels := map[OWNER_LABEL := run.info.name, OWNER_NAMESPACE_LABEL := run.info.namespace];
        var jobRun := JobRun(labels, jobName, Phase(false, false));
        var created := jobRunsClient.Create(jobRun, world.create);
        if created.None? {
          run.MarkRun(False, FailedToStartJobRun);
          return Some(CreateError);
        }
        status.jobRunName := created.value;
        run.MarkRun(Unknown, Running);
      }
      return None;
    }

    method CheckCodeEngineJobRunStatus(run: Run, status: CodeEngineTaskStatus, view: CheckView)
      returns (error: Option<Error>)
      modifies run`condition
      ensures Outcome(run.Status(), error, None) == CheckJob(old(run.Status()), Stored(status), view)
      ensures error == if status.jobRunName != "" && view.lookupFails then Some(LookupError) else None
      ensures run.condition ==
        if status.jobRunName == "" then old(run.condition)
        else if view.lookupFails then Some(Condition(Unknown, FailedToGetJobRunStatus))
        else if status.jobRunName !in view.cache then old(run.condition)
        else if view.cache[status.jobRunName].failed then Some(Condition(False, Failed))
        else if view.cache[status.jobRunName].complete then Some(Condition(True, Succeeded))
        else old(run.condition)
    {
      if |status.jobRunName| > 0 {
        if view.lookupFails {
          run.MarkRun(Unknown, FailedToGetJobRunStatus);
          return Some(LookupError);
        }
        if status.jobRunName !in view.cache {
          return None;
        }
        var jobRun := view.cache[status.jobRunName];
        if jobRun.complete {
          run.MarkRun(True, Succeeded);
        }
        if jobRun.failed {
          run.MarkRun(False, Failed);
        }
      }
      return None;
    }

    method ReconcileTask(run: Run, status: CodeEngineTaskStatus, world: World) returns (error: Option<Error>)
      modifies run`condition, status, jobRunsClient
      ensures
        var launch := LaunchTask(run.info, old(run.Status()), old(Stored(status)), old(LaunchViewOf(run.info, world)));
        && jobRunsClient.jobs == WithCreated(old(jobRunsClient.jobs), launch.created)
        && match launch
           case Stopped(st, err, _) => run.Status() == st && error == err && error.Some?
           case Launched(st, ts, _) =>
             && Outcome(run.Status(), error, None) == CheckJob(st, ts, world.check)
             && Stored(status) == ts
    {
      var task;
      task, error := GetCodeEngineTask(run);
      if error.Some? {
        return;
      }
      StoreCodeEngineTaskSpec(status, task.spec);
      assert LaunchViewOf(run.info, world) == old(LaunchViewOf(run.info, world));
      error := RunCodeEngineJob(run, status, world);
      if error.Some? {
        return;
      }
      error := CheckCodeEngineJobRunStatus(run, status, world.check);
    }

    /** All of a reconcile that runs before the deferred event. */
    method ReconcileVerified(run: Run, world: World) returns (error: Option<Error>)
      requires GateOf(run.info.spec).Accepted?
      modifies run, recorder, jobRunsClient
      ensures
        var out := Reconcile(run.info, old(run.Status()), Views(old(LaunchViewOf(run.info, world)), world.check));
        && run.Status() == out.status && error == out.error
        && jobRunsClient.jobs == WithCreated(old(jobRunsClient.jobs), out.created)
      ensures recorder.emitted == old(recorder.emitted) +
        if HasStarted(old(run.Status())) then []
        else [Emission(None, Initialize(run.info, old(run.Status()), world.now).condition)]
    {
      if !HasStarted(run.Status()) {
        InitializeRun(run, world.now);
      }
      assert run.Status() == Begin(run.info, old(run.Status()), world.now);
      if IsDone(run.Status()) {
        return None;
      }
      var status;
      status, error := DecodeStatusFromRun(run);
      if error.Some? {
        return;
      }
      assert LaunchViewOf(run.info, world) == old(LaunchViewOf(run.info, world));
      error := ReconcileTask(run, status, world);
      if error.Some? {
        return;
      }
      error := EncodeIntoRun(run, status, world.check);
    }

    /** The entry point, as its specification has it.  It writes the status of this Run, the events and
        the job runs, and nothing else: the memo and the tasks of the lister stay as they are, although
        the decoded status shares the spec of one of them.

        In particular the last event carries the condition that was found and the one that is left, and a
        job run is created exactly when one is wanted and not refused, also when the answer gets lost; so
        a name that is recorded now and was not before is that of a job run of this Run, made for the
        stored spec. */
    method ReconcileKind(run: Run, world: World) returns (error: Option<Error>)
      modifies run, recorder, jobRunsClient
      ensures
        var key := run.info.namespace + "/" + run.info.name;
        var taskName := if run.info.spec.ref.Some? then run.info.spec.ref.value.name else "";
        var taskKey := run.info.namespace + "/" + taskName;
        var task :=
          if run.info.spec.ref.Some? && taskKey in tasks.items then
            Some(TaskSpec(old(tasks.items[taskKey].spec.jobName)))
          else None;
        var memoHit := key in createdJobRuns && world.now <= createdJobRuns[key];
        var view := LaunchView(world.now, task, memoHit, world.definitions, world.create);
        var before := RunStatus(old(run.condition), old(run.startTime), old(run.extraFields));
        var out := Reconcile(run.info, before, Views(view, world.check));
        var labels := map[OWNER_LABEL := run.info.name, OWNER_NAMESPACE_LABEL := run.info.namespace];
        && out.status == RunStatus(run.condition, run.startTime, run.extraFields) && error == out.error
        && jobRunsClient.jobs == (
             if WantsJobRun(run.info, before, view) && !world.create.Refused? then
               old(jobRunsClient.jobs)[world.create.name :=
                 JobRun(labels, ChosenSpec(run.info, before, view).value.jobName, Phase(false, false))]
             else old(jobRunsClient.jobs))
        && recorder.emitted == old(recorder.emitted) + Emissions(run.info, before, Views(view, world.check))
      ensures GateOf(run.info.spec).Accepted? ==>
        var count := |old(recorder.emitted)| + if HasStarted(old(run.Status())) then 1 else 2;
        && |recorder.emitted| == count
        && recorder.emitted[count - 1] == Emission(old(run.condition), run.condition)
      ensures
        && GateOf(run.info.spec).Accepted?
        && (old(run.startTime).None? || old(run.startTime).value == ZERO_TIME) ==>
          run.startTime == Some(if world.now < run.info.creation then run.info.creation else world.now)
      ensures run.extraFields.Fields? && run.extraFields != old(run.extraFields) ==>
        && error == None && run.extraFields.status.spec.Some?
        && (old(run.extraFields).Fields? && old(run.extraFields).status.jobRunName != "" ==>
              run.extraFields.status.jobRunName == old(run.extraFields).status.jobRunName)
        && (!(old(run.extraFields).Fields? && old(run.extraFields).status.jobRunName != "") ==>
              var name := run.extraFields.status.jobRunName;
              && name in jobRunsClient.jobs && OwnedBy(run.info, jobRunsClient.jobs[name])
              && jobRunsClient.jobs[name].definition == run.extraFields.status.spec.value.jobName)
      ensures createdJobRuns == old(createdJobRuns) && tasks.items == old(tasks.items)
      ensures createdJobRuns == map[] ==> error != Some(RequeueNow)
      ensures forall t :: t in tasks.items.Values ==> t.spec.Value() == old(t.spec.Value())
    {
      ghost var views := Views(LaunchViewOf(run.info, world), world.check);
      ReconcileCreates(run.info, run.Status(), views, jobRunsClient.jobs);
      ReconcileRecords(run.info, run.Status(), views, jobRunsClient.jobs);
      ReconcileStarts(run.info, run.Status(), views);
      SilentMemoLetsPass(run.info, run.Status(), views);
      var gate := VerifyCodeEngineSpec(run);
      match gate {
        case Panics => return Some(Panicked);
        case Rejected => return None;
        case Accepted =>
          var beforeCondition := run.condition;
          error := ReconcileVerified(run, world);
          recorder.Emit(beforeCondition, run.condition);
      }
    }
  }
}
