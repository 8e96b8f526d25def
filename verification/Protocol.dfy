/** Many reconciles of one Run, interleaved with each other and with everything else that happens in
    Code Engine.

    A reconcile may start from any status the Run ever had, because the lister it reads is a cache;
    it may look at any earlier state of the job runs, for the same reason.  Between its two halves,
    and before its status is written, any other step may happen.  Any number of reconciles may be
    under way, so the model covers overlapping leaders.  The write is a compare-and-swap on the
    version of the Run: it goes through when nobody has written since the reconcile read, and is
    dropped otherwise.  It can also just get lost, and so can the whole process. */
module Protocol {
  import opened Types
  import opened ReconcileSpec
  import opened ReconcileProperties
  import opened SequentialHistory

  /** A reconcile under way: the version it read, and the views it has had so far. */
  datatype Worker = Worker(base: nat, launch: LaunchView, check: Option<CheckView>)

  /** `history` holds every committed status, the current one last; `log` what the reconciles that
      wrote them saw.  `jobs` holds every job run ever created, and `orphans` is the ledger of job
      runs whose creator can no longer record them. */
  datatype System = System(history: seq<RunStatus>, log: seq<Views>, jobs: map<string, JobRun>,
                           workers: map<nat, Worker>, orphans: set<string>)

  datatype Step =
    | Launch(id: nat, base: nat, view: LaunchView)
    | Check(id: nat, seen: CheckView)
    | Commit(id: nat)
    | Drop(id: nat)
    | Foreign(name: Name, job: JobRun)
    | Progress(name: Name, phase: Phase)

  const INITIAL := System([EMPTY_STATUS], [], map[], map[], {})

  function Current(s: System): RunStatus
    requires s.history != []
  {
    s.history[|s.history| - 1]
  }

  /** A cache that lags behind: it misses job runs, and shows earlier conditions of others. */
  predicate Lagging(cache: map<string, Phase>, jobs: map<string, JobRun>) {
    forall n :: n in cache ==> n in jobs && NotAfter(cache[n], jobs[n].phase)
  }

  /** What the worker would return, given what it read. */
  function Result(run: RunInfo, st: RunStatus, w: Worker): Outcome
    requires w.check.Some?
  {
    Finish(LaunchRun(run, st, w.launch), w.check.value)
  }

  function Made(run: RunInfo, st: RunStatus, w: Worker): set<string> {
    var created := LaunchRun(run, st, w.launch).created;
    if created.Some? then {created.value.name} else {}
  }

  /** The name the worker has created and may still record. */
  function Carried(run: RunInfo, st: RunStatus, w: Worker): set<string> {
    if w.check.None? then
      if LaunchRun(run, st, w.launch).Launched? then Made(run, st, w) else {}
    else if Recorded(Result(run, st, w).status) then
      Made(run, st, w) * {RecordedName(Result(run, st, w).status)}
    else {}
  }

  predicate Enabled(run: RunInfo, s: System, step: Step) {
    match step
    case Launch(id, base, view) =>
      && id !in s.workers && base < |s.history|
      && Made(run, s.history[base], Worker(base, view, None)) !! s.jobs.Keys
    case Check(id, seen) =>
      && id in s.workers && s.workers[id].check.None? && s.workers[id].base < |s.history|
      && Lagging(seen.cache, s.jobs)
    case Commit(id) => id in s.workers && s.workers[id].check.Some? && s.workers[id].base < |s.history|
    case Drop(id) => id in s.workers && s.workers[id].base < |s.history|
    case Foreign(name, job) => name !in s.jobs && !OwnedBy(run, job)
    case Progress(name, phase) => name in s.jobs && NotAfter(s.jobs[name].phase, phase)
  }

  function AfterLaunch(run: RunInfo, s: System, id: nat, base: nat, view: LaunchView): System
    requires base < |s.history|
  {
    var w := Worker(base, view, None);
    var created := LaunchRun(run, s.history[base], view).created;
    s.(workers := s.workers[id := w],
       jobs := if created.Some? then s.jobs[created.value.name := created.value.job] else s.jobs,
       orphans := s.orphans + (Made(run, s.history[base], w) - Carried(run, s.history[base], w)))
  }

  function AfterCheck(run: RunInfo, s: System, id: nat, seen: CheckView): System
    requires id in s.workers && s.workers[id].base < |s.history|
  {
    var st := s.history[s.workers[id].base];
    var w := s.workers[id].(check := Some(seen));
    s.(workers := s.workers[id := w],
       orphans := s.orphans + (Carried(run, st, s.workers[id]) - Carried(run, st, w)))
  }

  function AfterDrop(run: RunInfo, s: System, id: nat): System
    requires id in s.workers && s.workers[id].base < |s.history|
  {
    s.(workers := s.workers - {id},
       orphans := s.orphans + Carried(run, s.history[s.workers[id].base], s.workers[id]))
  }

  /** An unchanged status is not written at all; a changed one only if nobody else has written. */
  function AfterCommit(run: RunInfo, s: System, id: nat): System
    requires id in s.workers && s.workers[id].check.Some? && s.workers[id].base < |s.history|
  {
    var w := s.workers[id];
    var result := Result(run, s.history[w.base], w).status;
    var finished := s.(workers := s.workers - {id});
    if result == s.history[w.base] then finished
    else if w.base == |s.history| - 1 then
      finished.(history := s.history + [result], log := s.log + [Views(w.launch, w.check.value)])
    else AfterDrop(run, s, id)
  }

  function Apply(run: RunInfo, s: System, step: Step): (s': System)
    requires Enabled(run, s, step)
    ensures s.history <= s'.history && s.log <= s'.log
  {
    match step
    case Launch(id, base, view) => AfterLaunch(run, s, id, base, view)
    case Check(id, seen) => AfterCheck(run, s, id, seen)
    case Commit(id) => AfterCommit(run, s, id)
    case Drop(id) => AfterDrop(run, s, id)
    case Foreign(name, job) => s.(jobs := s.jobs[name := job])
    case Progress(name, phase) => s.(jobs := s.jobs[name := s.jobs[name].(phase := phase)])
  }

  /** The state after `steps`, if every one of them was possible. */
  function Execute(run: RunInfo, steps: seq<Step>): (r: Option<System>)
    ensures r.Some? ==> r.value.history != []
  {
    if steps == [] then Some(INITIAL)
    else
      var before := Execute(run, steps[..|steps| - 1]);
      var last := steps[|steps| - 1];
      if before.Some? && Enabled(run, before.value, last) then Some(Apply(run, before.value, last)) else None
  }
}
