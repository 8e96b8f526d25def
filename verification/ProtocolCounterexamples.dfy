/** Runs of the protocol that end where one would not want them to.  Each of them exists for every
    Run that a job run can be created for at all. */
module ProtocolCounterexamples {
  import opened Types
  import opened ReconcileSpec
  import opened ReconcileProperties
  import opened Protocol
  import opened ProtocolInvariant
  import opened ProtocolTheorems

  /** The embedded spec, or what the task lister answers here. */
  function SpecOf(run: RunInfo): TaskSpec
    requires Startable(run)
  {
    if run.spec.embedded.Some? then run.spec.embedded.value.raw.task else TaskSpec("job")
  }

  /** The task is there, its job definition too, and the memo is empty, as it always is. */
  function Willing(run: RunInfo, name: Name): LaunchView
    requires Startable(run)
  {
    LaunchView(run.creation, Some(SpecOf(run)), false, {SpecOf(run).jobName}, Created(name))
  }

  const QUIET := CheckView(map[], false, false)
  const BROKEN := CheckView(map[], true, false)

  /** Started, and its job run running; or still without a name after a failed lookup. */
  function Holding(run: RunInfo, name: Name): RunStatus
    requires Startable(run)
  {
    RunStatus(Some(Condition(Unknown, Running)), Some(run.creation), Fields(TaskStatus(Some(SpecOf(run)), name)))
  }

  function Nameless(run: RunInfo): RunStatus {
    RunStatus(Some(Condition(Unknown, FailedToGetJobRunStatus)), Some(run.creation), NoExtra)
  }

  lemma WillingLaunches(run: RunInfo, st: RunStatus, name: Name)
    requires Startable(run) && (st == EMPTY_STATUS || st == Nameless(run))
    ensures LaunchRun(run, st, Willing(run, name)) ==
      Launched(Holding(run, name).(extra := NoExtra), TaskStatus(Some(SpecOf(run)), name),
               Some(Creation(name, NewJobRun(run, SpecOf(run).jobName))))
    ensures Reconcile(run, st, Views(Willing(run, name), QUIET)).status == Holding(run, name)
    ensures Reconcile(run, st, Views(Willing(run, name), BROKEN)).status == Nameless(run)
  {
  }

  // ---------- Steps one after the other ----------

  /** Reconciles that do not overlap and read the latest status; every create is answered, every name
      can be encoded, and every write goes through. */
  predicate Orderly(run: RunInfo, steps: seq<Step>)
    requires Execute(run, steps).Some?
  {
    steps == [] ||
    (var front := steps[..|steps| - 1];
     Orderly(run, front) && InOrder(Execute(run, front).value, steps[|steps| - 1]))
  }

  predicate InOrder(s: System, step: Step) {
    match step
    case Launch(_, base, view) => s.workers == map[] && base == |s.history| - 1 && view.create.Created?
    case Check(_, seen) => !seen.encodeFails
    case Commit(id) => id in s.workers && s.workers[id].base == |s.history| - 1
    case Drop(_) => false
    case _ => true
  }

  lemma ExecuteOne(run: RunInfo, steps: seq<Step>, s: System, step: Step)
    requires Execute(run, steps) == Some(s) && Enabled(run, s, step)
    ensures Execute(run, steps + [step]) == Some(Apply(run, s, step))
    ensures Orderly(run, steps + [step]) <==> Orderly(run, steps) && InOrder(s, step)
  {
    assert (steps + [step])[..|steps + [step]| - 1] == steps;
  }

  /** Both halves of a reconcile that finds no job run, with nothing in between. */
  lemma Halves(run: RunInfo, steps: seq<Step>, s: System, id: nat, base: nat, view: LaunchView, seen: CheckView)
    returns (longer: seq<Step>, s': System)
    requires Execute(run, steps) == Some(s) && Enabled(run, s, Launch(id, base, view)) && seen.cache == map[]
    ensures Execute(run, longer) == Some(s') && s'.history == s.history
    ensures s'.jobs == AfterLaunch(run, s, id, base, view).jobs
    ensures s'.workers == s.workers[id := Worker(base, view, Some(seen))]
    ensures Orderly(run, longer) <==> Orderly(run, steps) && InOrder(s, Launch(id, base, view)) && !seen.encodeFails
  {
    var l, c := Launch(id, base, view), Check(id, seen);
    ExecuteOne(run, steps, s, l);
    var s1 := Apply(run, s, l);
    ExecuteOne(run, steps + [l], s1, c);
    longer, s' := steps + [l] + [c], Apply(run, s1, c);
  }

  /** The write of the only reconcile under way, if it has read the latest status. */
  lemma FreshWrite(run: RunInfo, steps: seq<Step>, s: System, w: Worker) returns (longer: seq<Step>, s': System)
    requires Execute(run, steps) == Some(s) && s.workers == map[0 := w]
    requires w.check.Some? && w.base == |s.history| - 1
    ensures Execute(run, longer) == Some(s') && s'.workers == map[] && s'.jobs == s.jobs
    ensures s.history <= s'.history && Current(s') == Result(run, s.history[w.base], w).status
    ensures Orderly(run, longer) <==> Orderly(run, steps)
  {
    ExecuteOne(run, steps, s, Commit(0));
    longer, s' := steps + [Commit(0)], AfterCommit(run, s, 0);
  }

  // ---------- More job runs than one ----------

  lemma NewJobRunIsOwned(run: RunInfo, jobName: string)
    ensures OwnedBy(run, NewJobRun(run, jobName))
  {
    assert OWNER_LABEL != OWNER_NAMESPACE_LABEL by { assert |OWNER_LABEL| != |OWNER_NAMESPACE_LABEL|; }
  }

  lemma OneMoreOwned(run: RunInfo, s: System, s': System, name: Name, job: JobRun)
    requires name !in s.jobs && s'.jobs == s.jobs[name := job] && OwnedBy(run, job)
    ensures |Owned(run, s')| == |Owned(run, s)| + 1
  {
    assert Owned(run, s') == Owned(run, s) + {name};
  }

  /** What a willing launch makes. */
  function JobRunOf(run: RunInfo): (job: JobRun)
    requires Startable(run)
    ensures OwnedBy(run, job)
  {
    NewJobRunIsOwned(run, SpecOf(run).jobName);
    NewJobRun(run, SpecOf(run).jobName)
  }

  lemma WillingMakes(run: RunInfo, s: System, base: nat, name: Name)
    requires Startable(run) && base < |s.history|
    requires s.history[base] == EMPTY_STATUS || s.history[base] == Nameless(run)
    ensures AfterLaunch(run, s, 0, base, Willing(run, name)).jobs == s.jobs[name := JobRunOf(run)]
  {
    WillingLaunches(run, s.history[base], name);
  }

  lemma WillingHalves(run: RunInfo, steps: seq<Step>, s: System, base: nat, name: Name, seen: CheckView)
    returns (longer: seq<Step>, s': System)
    requires Execute(run, steps) == Some(s) && Orderly(run, steps) && s.workers == map[]
    requires Startable(run) && base == |s.history| - 1
    requires s.history[base] == EMPTY_STATUS || s.history[base] == Nameless(run)
    requires name !in s.jobs && (seen == QUIET || seen == BROKEN)
    ensures Execute(run, longer) == Some(s') && Orderly(run, longer) && s'.history == s.history
    ensures s'.workers == map[0 := Worker(base, Willing(run, name), Some(seen))]
    ensures s'.jobs == s.jobs[name := JobRunOf(run)]
  {
    WillingLaunches(run, s.history[base], name);
    WillingMakes(run, s, base, name);
    longer, s' := Halves(run, steps, s, 0, base, Willing(run, name), seen);
  }

  lemma WillingResults(run: RunInfo, st: RunStatus, base: nat, name: Name, seen: CheckView)
    requires Startable(run) && (st == EMPTY_STATUS || st == Nameless(run)) && (seen == QUIET || seen == BROKEN)
    ensures Result(run, st, Worker(base, Willing(run, name), Some(seen))).status ==
      if seen == QUIET then Holding(run, name) else Nameless(run)
  {
    WillingLaunches(run, st, name);
  }

  /** A whole reconcile of the latest status while no other is under way: it creates a job run, and
      then finds its lookup in order or not. */
  lemma Turn(run: RunInfo, steps: seq<Step>, s: System, name: Name, seen: CheckView)
    returns (longer: seq<Step>, s': System)
    requires Execute(run, steps) == Some(s) && Orderly(run, steps) && s.workers == map[]
    requires Startable(run) && (Current(s) == EMPTY_STATUS || Current(s) == Nameless(run))
    requires name !in s.jobs && (seen == QUIET || seen == BROKEN)
    ensures Execute(run, longer) == Some(s') && Orderly(run, longer) && s'.workers == map[]
    ensures s.history <= s'.history && s'.jobs == s.jobs[name := JobRunOf(run)]
    ensures Current(s') == if seen == QUIET then Holding(run, name) else Nameless(run)
  {
    var base: nat := |s.history| - 1;
    var w := Worker(base, Willing(run, name), Some(seen));
    var halves, between := WillingHalves(run, steps, s, base, name, seen);
    WillingResults(run, s.history[base], base, name, seen);
    longer, s' := FreshWrite(run, halves, between, w);
    assert Current(s') == Result(run, s.history[base], w).status;
  }

  /** A reconcile whose lookup fails returns before it encodes the name, and the next one starts
      afresh: after any number of them there are as many job runs, and none of them is recorded. */
  lemma {:induction false} LookupErrorForgetsTheName(run: RunInfo, n: nat) returns (steps: seq<Step>, s: System)
    requires Startable(run)
    ensures Execute(run, steps) == Some(s) && Orderly(run, steps) && s.workers == map[]
    ensures |Owned(run, s)| == n && forall k :: k in s.jobs ==> |k| <= n
    ensures Current(s) == if n == 0 then EMPTY_STATUS else Nameless(run)
  {
    if n == 0 {
      steps, s := [], INITIAL;
    } else {
      var before;
      steps, before := LookupErrorForgetsTheName(run, n - 1);
      var name := seq(n, _ => 'a');
      steps, s := Turn(run, steps, before, name, BROKEN);
      OneMoreOwned(run, before, s, name, JobRunOf(run));
    }
  }

  /** So there is no bound on the job runs of a Run, although its reconciles come one after the other,
      each reads the latest status, every create is answered and every write goes through.  One of the
      job runs is recorded in the end. */
  lemma CreatesCanPileUp(run: RunInfo, n: nat) returns (steps: seq<Step>, s: System)
    requires Startable(run)
    ensures Execute(run, steps) == Some(s) && Orderly(run, steps) && s.workers == map[]
    ensures |Owned(run, s)| == n + 1 && Recorded(Current(s))
  {
    var before;
    steps, before := LookupErrorForgetsTheName(run, n);
    var name := seq(n + 1, _ => 'a');
    steps, s := Turn(run, steps, before, name, QUIET);
    OneMoreOwned(run, before, s, name, JobRunOf(run));
  }

  lemma FirstReconcileRecords(run: RunInfo) returns (steps: seq<Step>, s: System)
    requires Startable(run)
    ensures Execute(run, steps) == Some(s) && s.workers == map[] && |s.history| > 1 && s.history[0] == EMPTY_STATUS
    ensures Current(s) == Holding(run, "a") && s.jobs == map["a" := JobRunOf(run)]
  {
    steps, s := Turn(run, [], INITIAL, "a", QUIET);
  }

  /** Two job runs again, without any failure: the second reconcile reads the status from before the
      first write.  Its own write comes too late.  Had it been allowed to overwrite, the recorded
      name would have changed. */
  lemma StaleReadCreatesAgain(run: RunInfo) returns (steps: seq<Step>, s: System, late: Worker)
    requires Startable(run)
    ensures Execute(run, steps) == Some(s)
    ensures |Owned(run, s)| == 2 && RecordedName(Current(s)) == "a"
    ensures s.workers == map[1 := late] && late.check == Some(QUIET) && late.base == 0 < |s.history| - 1
    ensures RecordedName(Result(run, s.history[0], late).status) == "b"
  {
    var before;
    steps, before := FirstReconcileRecords(run);
    WillingLaunches(run, EMPTY_STATUS, "b");
    late := Worker(0, Willing(run, "b"), Some(QUIET));
    steps, s := Halves(run, steps, before, 1, 0, Willing(run, "b"), QUIET);
    assert Owned(run, before) == {"a"};
    OneMoreOwned(run, before, s, "b", JobRunOf(run));
  }

  // ---------- Losses ----------

  datatype Loss = LostAnswer | EarlyReturn | LateWrite | LostWrite

  predicate IsLoss(step: Step, loss: Loss) {
    match loss
    case LostAnswer => step.Launch?
    case EarlyReturn => step.Check?
    case LateWrite => step.Commit?
    case LostWrite => step.Drop?
  }

  lemma FirstLaunch(run: RunInfo) returns (s: System)
    requires Startable(run)
    ensures Execute(run, [Launch(0, 0, Willing(run, "a"))]) == Some(s) && s.history == [EMPTY_STATUS]
    ensures s.workers == map[0 := Worker(0, Willing(run, "a"), None)] && s.jobs == map["a" := JobRunOf(run)]
  {
    WillingLaunches(run, EMPTY_STATUS, "a");
    var l := Launch(0, 0, Willing(run, "a"));
    ExecuteOne(run, [], INITIAL, l);
    assert [] + [l] == [l];
    s := Apply(run, INITIAL, l);
  }

  lemma SecondLaunch(run: RunInfo) returns (steps: seq<Step>, s: System)
    requires Startable(run)
    ensures Execute(run, steps) == Some(s) && s.history == [EMPTY_STATUS]
    ensures s.workers == map[0 := Worker(0, Willing(run, "a"), None), 1 := Worker(0, Willing(run, "b"), Some(QUIET))]
    ensures s.jobs == map["a" := JobRunOf(run), "b" := JobRunOf(run)]
  {
    var first := FirstLaunch(run);
    WillingLaunches(run, EMPTY_STATUS, "b");
    steps, s := Halves(run, [Launch(0, 0, Willing(run, "a"))], first, 1, 0, Willing(run, "b"), QUIET);
  }

  lemma FirstCommits(run: RunInfo, s: System)
    requires Startable(run) && s.history == [EMPTY_STATUS]
    requires s.workers == map[0 := Worker(0, Willing(run, "a"), None), 1 := Worker(0, Willing(run, "b"), Some(QUIET))]
    ensures Enabled(run, s, Check(0, QUIET)) && Enabled(run, Apply(run, s, Check(0, QUIET)), Commit(0))
    ensures var s' := Apply(run, Apply(run, s, Check(0, QUIET)), Commit(0));
      && s'.history == [EMPTY_STATUS, Holding(run, "a")] && s'.jobs == s.jobs
      && s'.workers == map[1 := Worker(0, Willing(run, "b"), Some(QUIET))]
  {
    WillingResults(run, EMPTY_STATUS, 0, "a", QUIET);
  }

  /** Two reconciles that overlap, both of which have read the latest status: one records its job run,
      and the other comes too late with its own. */
  lemma OverlapCreatesTwice(run: RunInfo) returns (steps: seq<Step>, s: System)
    requires Startable(run)
    ensures Execute(run, steps) == Some(s) && s.history == [EMPTY_STATUS, Holding(run, "a")]
    ensures s.workers == map[1 := Worker(0, Willing(run, "b"), Some(QUIET))]
    ensures s.jobs == map["a" := JobRunOf(run), "b" := JobRunOf(run)]
  {
    var both;
    steps, both := SecondLaunch(run);
    FirstCommits(run, both);
    ExecuteOne(run, steps, both, Check(0, QUIET));
    s := Apply(run, both, Check(0, QUIET));
    ExecuteOne(run, steps + [Check(0, QUIET)], s, Commit(0));
    steps, s := steps + [Check(0, QUIET)] + [Commit(0)], Apply(run, s, Commit(0));
  }

  lemma WillingCarries(run: RunInfo, name: Name, check: Option<CheckView>)
    requires Startable(run) && (check == None || check == Some(QUIET))
    ensures Carried(run, EMPTY_STATUS, Worker(0, Willing(run, name), check)) == {name}
  {
    WillingLaunches(run, EMPTY_STATUS, name);
    WillingResults(run, EMPTY_STATUS, 0, name, QUIET);
  }

  lemma LostAnswerLoses(run: RunInfo) returns (step: Step)
    requires Startable(run)
    ensures step.Launch? && Enabled(run, INITIAL, step) && Losing(run, INITIAL, step)
  {
    var view := Willing(run, "a").(create := ResponseLost("a"));
    CreatesExactlyWhenWanted(run, EMPTY_STATUS, Views(view, QUIET));
    step := Launch(0, 0, view);
  }

  /** None of the four kinds of loss is idle: each can happen, to every Run that can have a job run. */
  lemma EveryLossHappens(run: RunInfo, loss: Loss) returns (steps: seq<Step>, s: System, step: Step)
    requires Startable(run)
    ensures Execute(run, steps) == Some(s) && Enabled(run, s, step) && IsLoss(step, loss)
    ensures Based(s) && Losing(run, s, step)
  {
    WillingCarries(run, "a", None);
    WillingCarries(run, "b", Some(QUIET));
    match loss {
      case LostAnswer =>
        steps, s := [], INITIAL;
        step := LostAnswerLoses(run);
      case EarlyReturn =>
        s := FirstLaunch(run);
        steps, step := [Launch(0, 0, Willing(run, "a"))], Check(0, BROKEN);
      case LateWrite =>
        steps, s := OverlapCreatesTwice(run);
        step := Commit(1);
      case LostWrite =>
        s := FirstLaunch(run);
        steps, step := [Launch(0, 0, Willing(run, "a"))], Drop(0);
    }
  }

  // ---------- After the end ----------

  /** The job definition is not known. */
  function Undefined(run: RunInfo): LaunchView
    requires Startable(run)
  {
    Willing(run, "a").(definitions := {})
  }

  lemma UndefinedEnds(run: RunInfo)
    requires Startable(run)
    ensures var launch := LaunchRun(run, EMPTY_STATUS, Undefined(run));
      launch.Stopped? && IsDone(launch.status) && launch.created.None?
  {
  }

  lemma MissingDefinitionEndsTheRun(run: RunInfo) returns (steps: seq<Step>, s: System)
    requires Startable(run)
    ensures Execute(run, steps) == Some(s) && IsDone(Current(s)) && s.jobs == map[] && s.workers == map[]
    ensures s.history[0] == EMPTY_STATUS
  {
    UndefinedEnds(run);
    var between;
    steps, between := Halves(run, [], INITIAL, 0, 0, Undefined(run), QUIET);
    steps, s := FreshWrite(run, steps, between, Worker(0, Undefined(run), Some(QUIET)));
  }

  /** A job run created after the Run has ended: the create needs no more than an outdated read. */
  lemma CreatesAfterTheEnd(run: RunInfo) returns (steps: seq<Step>, s: System, step: Step)
    requires Startable(run)
    ensures Execute(run, steps) == Some(s) && IsDone(Current(s)) && Enabled(run, s, step)
    ensures step.Launch? && |Owned(run, Apply(run, s, step))| == |Owned(run, s)| + 1
  {
    steps, s := MissingDefinitionEndsTheRun(run);
    WillingLaunches(run, EMPTY_STATUS, "a");
    step := Launch(1, 0, Willing(run, "a"));
    OneMoreOwned(run, s, Apply(run, s, step), "a", JobRunOf(run));
  }
}
