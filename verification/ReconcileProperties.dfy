/** What one reconcile guarantees, whatever it reads and whatever its environment answers. */
module ReconcileProperties {
  import opened Types
  import opened ReconcileSpec

  // ---------- The gate ----------

  /** A Run is reconciled exactly when it names a task and everything it names is a CodeEngineTask, and left
      alone otherwise.  The controller panics exactly on a foreign embedded spec that stands alone. */
  lemma GateIsExact(run: RunInfo, st: RunStatus, views: Views)
    ensures var ref, embedded := run.spec.ref, run.spec.embedded;
      && (GateOf(run.spec).Accepted? <==>
            && (ref.Some? || embedded.Some?)
            && (ref.Some? ==> ref.value.apiVersion == API_VERSION && ref.value.kind == CUSTOM_TASK_KIND)
            && (embedded.Some? ==>
                  embedded.value.apiVersion == API_VERSION && embedded.value.kind == CUSTOM_TASK_KIND))
      && (Reconcile(run, st, views).error == Some(Panicked) <==>
            && ref.None? && embedded.Some?
            && (embedded.value.apiVersion != API_VERSION || embedded.value.kind != CUSTOM_TASK_KIND))
    ensures !GateOf(run.spec).Accepted? ==>
      && Reconcile(run, st, views).status == st && Reconcile(run, st, views).created == None
      && Emissions(run, st, views) == []
  {
  }

  // ---------- Conditions and reasons ----------

  predicate LegalCondition(c: Condition, recorded: bool) {
    match c.truth
    case Unknown =>
      || (c.reason.Started? && !recorded)
      || (c.reason.Running? && recorded)
      || c.reason.FailedToGetJobRunStatus?
    case True =>
      c.reason.Succeeded? && recorded
    case False =>
      || c.reason.Failed?
      || c.reason.CouldntGetTask?
      || (c.reason.FailedToStartJobRun? && !recorded)
  }

  /** The statuses the controller writes, starting from a Run that nobody has touched. */
  predicate WellFormed(run: RunInfo, st: RunStatus) {
    || st == EMPTY_STATUS
    || (&& HasStarted(st) && run.creation <= st.startTime.value
        && st.condition.Some? && LegalCondition(st.condition.value, Recorded(st))
        && (st.extra.NoExtra? || (st.extra.Fields? && st.extra.status.spec.Some? && Recorded(st))))
  }

  /** What never changes again, and the rank that never grows. */
  predicate Evolves(a: RunStatus, b: RunStatus) {
    && (a.startTime.Some? ==> b.startTime == a.startTime)
    && (a.extra.Fields? ==> b.extra == a.extra)
    && (IsDone(a) ==> b == a)
    && Rank(b) <= Rank(a)
  }

  function Rank(st: RunStatus): nat {
    if IsDone(st) then 0 else if Recorded(st) then 1 else 2
  }

  /** What the first half leaves of a status. */
  lemma LaunchKeeps(run: RunInfo, st: RunStatus, view: LaunchView)
    requires run.creation != ZERO_TIME && WellFormed(run, st)
    ensures var launch := LaunchRun(run, st, view);
      && launch.status.extra == st.extra
      && (st.startTime.Some? ==> launch.status.startTime == st.startTime)
      && (launch.Stopped? ==> WellFormed(run, launch.status) && Evolves(st, launch.status))
      && (launch.Launched? ==>
            && HasStarted(launch.status) && run.creation <= launch.status.startTime.value
            && !IsDone(st) && !IsDone(launch.status) && launch.status.condition.Some?
            && launch.task.spec.Some? && launch.task.jobRunName != ""
            && LegalCondition(launch.status.condition.value, true)
            && (st.extra.Fields? ==> st.extra.status == launch.task))
  {
  }

  lemma ReconcileKeepsWellFormed(run: RunInfo, st: RunStatus, views: Views)
    requires run.creation != ZERO_TIME
    requires WellFormed(run, st)
    ensures WellFormed(run, Reconcile(run, st, views).status)
    ensures Evolves(st, Reconcile(run, st, views).status)
  {
    LaunchKeeps(run, st, views.launch);
  }

  /** The start time is set once, for any clock: not before the creation, and it counts as set unless
      clock and creation are both zero. */
  lemma StartTimeIsLatest(run: RunInfo, st: RunStatus, views: Views)
    requires GateOf(run.spec).Accepted?
    ensures var started := Reconcile(run, st, views).status;
      started.startTime ==
        if st.startTime.Some? && st.startTime.value != ZERO_TIME then st.startTime
        else if run.creation <= views.launch.now then Some(views.launch.now)
        else Some(run.creation)
    ensures HasStarted(Reconcile(run, st, views).status) <==>
      HasStarted(st) || run.creation != ZERO_TIME || views.launch.now != ZERO_TIME
  {
  }

  // ---------- Finished Runs ----------

  /** A finished Run is left alone: nothing is resolved, created or looked up, so the outcome does
      not depend on the environment at all. */
  lemma DoneIsQuiet(run: RunInfo, st: RunStatus, views: Views)
    requires HasStarted(st) && IsDone(st)
    ensures Reconcile(run, st, views).status == st && Reconcile(run, st, views).created == None
    ensures !GateOf(run.spec).Panics? ==> Reconcile(run, st, views).error == None
    ensures LaunchRun(run, st, views.launch) ==
      Stopped(st, if GateOf(run.spec).Panics? then Some(Panicked) else None, None)
  {
  }

  // ---------- The task ----------

  /** The task spec that a reconcile works with: the stored one when there is one. */
  function ChosenSpec(run: RunInfo, st: RunStatus, view: LaunchView): Option<TaskSpec> {
    match GetTask(run, st, view.task)
    case NoTask(_, _) => None
    case Task(spec) => if st.extra.Fields? && st.extra.status.spec.Some? then st.extra.status.spec else Some(spec)
  }

  /** The task must resolve: an embedded spec must parse, whatever else is named; without one there must
      be a reference with a name that the lister knows.  Then the stored spec counts, and only when none
      is stored, what was resolved. */
  lemma TaskResolvesExactly(run: RunInfo, st: RunStatus, view: LaunchView)
    ensures var ref, embedded := run.spec.ref, run.spec.embedded;
      ChosenSpec(run, st, view).Some? <==>
        if embedded.Some? then embedded.value.raw.Parsed?
        else ref.Some? && ref.value.name != "" && view.task.Some?
    ensures ChosenSpec(run, st, view).Some? ==>
      ChosenSpec(run, st, view) ==
        if st.extra.Fields? && st.extra.status.spec.Some? then st.extra.status.spec
        else if run.spec.embedded.Some? then Some(run.spec.embedded.value.raw.task)
        else view.task
  {
  }

  /** Once a spec is stored, what the task says no longer matters, only that it is there: while it is,
      editing it changes nothing; when it is gone, an unfinished Run fails, although its job run goes
      on. */
  lemma StoredSpecsNeedTheirTask(run: RunInfo, st: RunStatus, views: Views, other: Option<TaskSpec>)
    requires st.extra.Fields? && st.extra.status.spec.Some? && views.launch.task.Some?
    ensures var changed := Reconcile(run, st, views.(launch := views.launch.(task := other)));
      && (other.Some? || run.spec.embedded.Some? ==> changed == Reconcile(run, st, views))
      && (other.None? && run.spec.embedded.None? && GateOf(run.spec).Accepted? && !IsDone(st) ==>
            changed == Outcome(Mark(Begin(run, st, views.launch.now), False, CouldntGetTask), Some(MissingTask), None))
  {
  }

  // ---------- Creation ----------

  /** A reconcile creates a job run exactly when the Run is ours, unfinished and without a recorded
      name, its task resolves to a known job definition, the memo is silent, and the server does
      not refuse. */
  predicate WantsJobRun(run: RunInfo, st: RunStatus, view: LaunchView) {
    && GateOf(run.spec).Accepted? && !IsDone(st) && !st.extra.Garbled? && !Recorded(st)
    && ChosenSpec(run, st, view).Some? && !view.memoHit
    && ChosenSpec(run, st, view).value.jobName in view.definitions
  }

  lemma CreatesExactlyWhenWanted(run: RunInfo, st: RunStatus, views: Views)
    ensures Reconcile(run, st, views).created.Some? <==>
      WantsJobRun(run, st, views.launch) && !views.launch.create.Refused?
    ensures var created := Reconcile(run, st, views).created;
      created.Some? ==>
        && created.value.name == views.launch.create.name
        && created.value.job.labels == map[OWNER_LABEL := run.name, OWNER_NAMESPACE_LABEL := run.namespace]
        && created.value.job.definition == ChosenSpec(run, st, views.launch).value.jobName
        && created.value.job.phase == Phase(false, false)
        && OwnedBy(run, created.value.job)
  {
    var begun := Begin(run, st, views.launch.now);
    assert IsDone(begun) == IsDone(st) && begun.extra == st.extra;
    assert OWNER_LABEL != OWNER_NAMESPACE_LABEL by { assert |OWNER_LABEL| != |OWNER_NAMESPACE_LABEL|; }
  }

  /** The Runs that a job run can be created for; see `OnlyStartableRunsCreate`. */
  predicate Startable(run: RunInfo) {
    && run.creation != ZERO_TIME && GateOf(run.spec).Accepted?
    && if run.spec.embedded.Some? then run.spec.embedded.value.raw.Parsed? else run.spec.ref.value.name != ""
  }

  lemma OnlyStartableRunsCreate(run: RunInfo, st: RunStatus, views: Views)
    requires run.creation != ZERO_TIME && Reconcile(run, st, views).created.Some?
    ensures Startable(run)
  {
    CreatesExactlyWhenWanted(run, st, views);
  }

  /** What is stored: after a reconcile without error of an unfinished Run, the spec it worked with and
      the name of the job run, old or new.  In all other cases the extra fields stay as they were. */
  lemma ExtraFieldsAreExact(run: RunInfo, st: RunStatus, views: Views)
    ensures var out := Reconcile(run, st, views);
      if GateOf(run.spec).Accepted? && !IsDone(st) && out.error.None? then
        && out.status.extra.Fields?
        && out.status.extra.status.spec == ChosenSpec(run, st, views.launch)
        && out.status.extra.status.spec.Some?
        && (if st.extra.Fields? && st.extra.status.jobRunName != "" then
              out.status.extra.status.jobRunName == st.extra.status.jobRunName
            else
              views.launch.create.Created? && out.status.extra.status.jobRunName == views.launch.create.name)
      else
        out.status.extra == st.extra
  {
    var begun := Begin(run, st, views.launch.now);
    assert IsDone(begun) == IsDone(st) && begun.extra == st.extra;
  }

  /** When the name of a job run just created survives: the create call must answer, and neither
      the lookup nor the encoder may fail.  Otherwise the name is forgotten. */
  lemma NameSurvivesExactly(run: RunInfo, st: RunStatus, views: Views)
    requires Reconcile(run, st, views).created.Some?
    ensures var out := Reconcile(run, st, views);
      RecordedName(out.status) == out.created.value.name <==>
        views.launch.create.Created? && !views.check.lookupFails && !views.check.encodeFails
    ensures var out := Reconcile(run, st, views);
      !(RecordedName(out.status) == out.created.value.name) ==> out.error.Some? && out.status.extra == st.extra
  {
  }

  // ---------- Errors ----------

  /** A Run that has started keeps its condition; one that has not is marked as started. */
  function ConditionAtStart(st: RunStatus): Option<Condition> {
    if st.startTime.Some? && st.startTime.value != ZERO_TIME then st.condition
    else if st.condition.Some? then Some(st.condition.value.(reason := Started))
    else Some(Condition(Unknown, Started))
  }

  /** The first half goes on, or stops with one of its errors. */
  lemma LaunchErrorsAreExact(run: RunInfo, st: RunStatus, view: LaunchView)
    requires GateOf(run.spec).Accepted? && !IsDone(st)
    ensures var launch := LaunchRun(run, st, view);
      var chosen := ChosenSpec(run, st, view);
      && (launch.Launched? <==>
            && !st.extra.Garbled? && chosen.Some?
            && (Recorded(st) || (WantsJobRun(run, st, view) && view.create.Created?)))
      && (launch.Launched? ==> launch.task.jobRunName != "")
      && (launch.Stopped? ==>
            launch.error == Some(
              if st.extra.Garbled? then DecodeError
              else if chosen.None? then
                if run.spec.embedded.Some? then UnparsableSpec else MissingTask
              else if view.memoHit then RequeueNow
              else if chosen.value.jobName !in view.definitions then MissingJobDefinition
              else CreateError))
  {
    var begun := Begin(run, st, view.now);
    assert IsDone(begun) == IsDone(st) && begun.extra == st.extra;
  }

  /** Which error a reconcile of an unfinished Run returns, in terms of what went wrong. */
  lemma ErrorsAreExact(run: RunInfo, st: RunStatus, views: Views)
    requires GateOf(run.spec).Accepted? && !IsDone(st)
    ensures var out := Reconcile(run, st, views);
      var chosen := ChosenSpec(run, st, views.launch);
      var unparsable := run.spec.embedded.Some? && run.spec.embedded.value.raw.Unparsable?;
      var starting := !st.extra.Garbled? && chosen.Some? && !Recorded(st);
      var checking := !st.extra.Garbled? && chosen.Some? &&
        (Recorded(st) || (WantsJobRun(run, st, views.launch) && views.launch.create.Created?));
      && (out.error == Some(DecodeError) <==> st.extra.Garbled?)
      && (out.error == Some(UnparsableSpec) <==> !st.extra.Garbled? && unparsable)
      && (out.error == Some(MissingTask) <==> !st.extra.Garbled? && chosen.None? && !unparsable)
      && (out.error == Some(RequeueNow) <==> starting && views.launch.memoHit)
      && (out.error == Some(MissingJobDefinition) <==>
            starting && !views.launch.memoHit && chosen.value.jobName !in views.launch.definitions)
      && (out.error == Some(CreateError) <==>
            WantsJobRun(run, st, views.launch) && !views.launch.create.Created?)
      && (out.error == Some(LookupError) <==> checking && views.check.lookupFails)
      && (out.error == Some(EncodeError) <==> checking && !views.check.lookupFails && views.check.encodeFails)
  {
    LaunchErrorsAreExact(run, st, views.launch);
  }

  /** What an error leaves in the status.  Every error leaves the extra fields alone.  A spec that does
      not parse and a memo hit leave the condition alone too; a failed lookup is written down, but not as
      a failure; all others fail the Run. */
  lemma ErrorsLeaveTheirMark(run: RunInfo, st: RunStatus, views: Views)
    requires GateOf(run.spec).Accepted? && !IsDone(st)
    ensures var out, begun := Reconcile(run, st, views), ConditionAtStart(st);
      out.error.Some? ==>
        && out.status.extra == st.extra
        && out.status.condition == match out.error.value
           case UnparsableSpec => begun
           case RequeueNow => begun
           case MissingTask => Some(Condition(False, CouldntGetTask))
           case MissingJobDefinition => Some(Condition(False, FailedToStartJobRun))
           case CreateError => Some(Condition(False, FailedToStartJobRun))
           case LookupError => Some(Condition(Unknown, FailedToGetJobRunStatus))
           case _ => Some(Condition(False, Failed))
  {
  }

  // ---------- Verdicts ----------

  /** The conditions the check saw for the recorded job run. */
  predicate Observed(st: RunStatus, view: CheckView, p: Phase) {
    Recorded(st) && RecordedName(st) in view.cache && view.cache[RecordedName(st)] == p
  }

  predicate SeenFailed(st: RunStatus, view: CheckView) {
    Observed(st, view, Phase(true, true)) || Observed(st, view, Phase(false, true))
  }

  /** A Run turns to success exactly when the recorded job run was seen complete and not failed; a
      job run seen failed, complete or not, fails the Run. */
  lemma VerdictIsObserved(run: RunInfo, st: RunStatus, views: Views)
    requires !IsDone(st)
    ensures var out := Reconcile(run, st, views).status;
      (IsDone(out) && out.condition.value.truth.True? ==> Observed(out, views.check, Phase(true, false)))
    ensures var out := Reconcile(run, st, views);
      out.error == None && GateOf(run.spec).Accepted? ==>
        && (IsDone(out.status) && out.status.condition.value.truth.True? <==>
              Observed(out.status, views.check, Phase(true, false)))
        && (IsDone(out.status) && out.status.condition.value.truth.False? <==>
              SeenFailed(out.status, views.check))
  {
  }

  lemma LaunchLeavesCondition(run: RunInfo, st: RunStatus, view: LaunchView)
    requires GateOf(run.spec).Accepted? && !IsDone(st) && LaunchRun(run, st, view).Launched?
    ensures var launch := LaunchRun(run, st, view);
      && launch.task.jobRunName != ""
      && launch.status.condition == if Recorded(st) then ConditionAtStart(st) else Some(Condition(Unknown, Running))
  {
    var begun := Begin(run, st, view.now);
    assert IsDone(begun) == IsDone(st) && begun.extra == st.extra;
  }

  /** The condition after a reconcile without error, in every case: the verdict on the job run; while
      there is none, a job run just created is running, and of one that was recorded before, whether the
      cache shows it or not, nothing new is known. */
  lemma ConditionIsExact(run: RunInfo, st: RunStatus, views: Views)
    requires GateOf(run.spec).Accepted? && !IsDone(st) && Reconcile(run, st, views).error.None?
    ensures var out, cache := Reconcile(run, st, views).status, views.check.cache;
      var name := RecordedName(out);
      out.condition ==
        if name in cache && cache[name].failed then Some(Condition(False, Failed))
        else if name in cache && cache[name].complete then Some(Condition(True, Succeeded))
        else if Recorded(st) then ConditionAtStart(st)
        else Some(Condition(Unknown, Running))
  {
    LaunchLeavesCondition(run, st, views.launch);
  }

  /** The four ways to the end, each with its one cause. */
  lemma EndsHaveACause(run: RunInfo, st: RunStatus, views: Views)
    requires WellFormed(run, st) && !IsDone(st) && IsDone(Reconcile(run, st, views).status)
    ensures var out := Reconcile(run, st, views);
      && (out.status.condition == Some(Condition(True, Succeeded)) <==>
            out.error.None? && Observed(out.status, views.check, Phase(true, false)))
      && (out.status.condition == Some(Condition(False, Failed)) <==>
            || out.error == Some(EncodeError)
            || (out.error.None? && SeenFailed(out.status, views.check)))
      && (out.status.condition == Some(Condition(False, CouldntGetTask)) <==> out.error == Some(MissingTask))
      && (out.status.condition == Some(Condition(False, FailedToStartJobRun)) <==>
            out.error == Some(MissingJobDefinition) || out.error == Some(CreateError))
      && out.status.condition.value.reason in {Succeeded, Failed, CouldntGetTask, FailedToStartJobRun}
  {
  }

  // ---------- Convergence ----------

  /** Reconciling the result again, with the same task and the same job run cache but any clock, memo
      and create answer, changes nothing and creates nothing. */
  lemma ReconcileConverges(run: RunInfo, st: RunStatus, views: Views, again: LaunchView)
    requires run.creation != ZERO_TIME || views.launch.now != ZERO_TIME
    requires Reconcile(run, st, views).error == None
    requires again.task == views.launch.task
    ensures var once := Reconcile(run, st, views).status;
      Reconcile(run, once, Views(again, views.check)) == Outcome(once, None, None)
  {
    var launch := LaunchRun(run, st, views.launch);
    var once := Reconcile(run, st, views).status;
    if launch.Launched? {
      assert once.extra == Fields(launch.task) && launch.task.jobRunName != "" && launch.task.spec.Some?;
      assert HasStarted(once);
    }
  }

  // ---------- Progress ----------

  predicate Reachable(view: CheckView) {
    !view.lookupFails && !view.encodeFails
  }

  /** A reconcile that can do its work: it starts the job run, or it finds the recorded one finished. */
  predicate Helpful(run: RunInfo, st: RunStatus, views: Views) {
    && Reachable(views.check)
    && GateOf(run.spec).Accepted? && !IsDone(st) && !st.extra.Garbled?
    && ChosenSpec(run, st, views.launch).Some?
    && if Recorded(st) then RecordedName(st) in views.check.cache && Finished(views.check.cache[RecordedName(st)])
       else WantsJobRun(run, st, views.launch) && views.launch.create.Created?
  }

  lemma HelpfulReconcileLowersRank(run: RunInfo, st: RunStatus, views: Views)
    requires Helpful(run, st, views)
    ensures Reconcile(run, st, views).error == None
    ensures Rank(Reconcile(run, st, views).status) < Rank(st)
  {
  }

  /** The other way to the end: a failure that the controller writes down as the Run's own. */
  predicate Fatal(run: RunInfo, st: RunStatus, views: Views) {
    && GateOf(run.spec).Accepted? && !IsDone(st)
    && var out := Reconcile(run, st, views);
       && out.error.Some?
       && out.error.value in {DecodeError, MissingTask, MissingJobDefinition, CreateError, EncodeError}
  }

  /** The rank falls in no other case. */
  lemma RankFallsExactly(run: RunInfo, st: RunStatus, views: Views)
    ensures Rank(Reconcile(run, st, views).status) < Rank(st) <==>
      Helpful(run, st, views) || Fatal(run, st, views)
  {
    var begun := Begin(run, st, views.launch.now);
    assert IsDone(begun) == IsDone(st) && begun.extra == st.extra;
    if IsDone(st) {
    } else if Helpful(run, st, views) {
      HelpfulReconcileLowersRank(run, st, views);
    } else {
      CreatesExactlyWhenWanted(run, st, views);
    }
  }
}
