/** What holds after any number of steps of the protocol. */
module ProtocolInvariant {
  import opened Types
  import opened ReconcileSpec
  import opened ReconcileProperties
  import opened SequentialHistory
  import opened Protocol
  import opened Ledger

  function CurrentName(s: System): set<string>
    requires s.history != []
  {
    if Recorded(Current(s)) then {RecordedName(Current(s))} else {}
  }

  function Owned(run: RunInfo, s: System): set<string> {
    set n | n in s.jobs && OwnedBy(run, s.jobs[n])
  }

  /** The names that the workers may still record. */
  function Held(run: RunInfo, s: System): map<nat, set<string>>
    requires Based(s)
  {
    map id | id in s.workers :: Carried(run, s.history[s.workers[id].base], s.workers[id])
  }

  predicate Based(s: System) {
    forall id :: id in s.workers ==> s.workers[id].base < |s.history|
  }

  /** The committed history is a sequential one. */
  predicate Serial(run: RunInfo, s: System) {
    && |s.history| == |s.log| + 1
    && forall i :: 0 <= i <= |s.log| ==> s.history[i] == Replay(run, s.log[..i])
  }

  /** Every commit changes the status. */
  predicate Changing(s: System) {
    forall i :: 0 < i < |s.history| ==> s.history[i] != s.history[i - 1]
  }

  predicate SameIdentity(a: JobRun, b: JobRun) {
    a.labels == b.labels && a.definition == b.definition
  }

  /** The worker's view of the job runs lags, and the job run it has made is there. */
  predicate WorkerOk(run: RunInfo, s: System, w: Worker)
    requires w.base < |s.history|
  {
    && (w.check.Some? ==> Lagging(w.check.value.cache, s.jobs))
    && var created := LaunchRun(run, s.history[w.base], w.launch).created;
       created.Some? ==> created.value.name in s.jobs && SameIdentity(s.jobs[created.value.name], created.value.job)
  }

  predicate WorkersOk(run: RunInfo, s: System)
    requires Based(s)
  {
    forall id :: id in s.workers ==> WorkerOk(run, s, s.workers[id])
  }

  /** What was committed was seen, not imagined. */
  predicate LogOk(s: System) {
    forall i :: 0 <= i < |s.log| ==> Lagging(s.log[i].check.cache, s.jobs)
  }

  /** A recorded name is that of a job run of this Run, made for the stored spec. */
  predicate Coherent(run: RunInfo, s: System)
    requires s.history != []
  {
    var st := Current(s);
    Recorded(st) ==>
      && st.extra.status.spec.Some?
      && RecordedName(st) in s.jobs
      && OwnedBy(run, s.jobs[RecordedName(st)])
      && s.jobs[RecordedName(st)].definition == st.extra.status.spec.value.jobName
  }

  /** Every job run of this Run is recorded, orphaned, or still carried by one reconcile; never two
      of these, and never by two reconciles. */
  predicate Accounted(run: RunInfo, s: System)
    requires s.history != [] && Based(s)
  {
    Balanced(Owned(run, s), CurrentName(s), s.orphans, Held(run, s))
  }

  predicate Inv(run: RunInfo, s: System) {
    && Serial(run, s)
    && Changing(s)
    && Based(s)
    && WorkersOk(run, s)
    && LogOk(s)
    && Coherent(run, s)
    && Accounted(run, s)
  }

  // ---------- One worker ----------

  lemma CarriedIsNew(run: RunInfo, st: RunStatus, w: Worker)
    ensures Carried(run, st, w) <= Made(run, st, w)
    ensures Carried(run, st, w) != {} ==> !Recorded(st) && Carried(run, st, w) == Made(run, st, w)
  {
  }

  lemma CheckKeepsOrDrops(run: RunInfo, st: RunStatus, w: Worker, seen: CheckView)
    requires w.check.None?
    ensures Carried(run, st, w.(check := Some(seen))) <= Carried(run, st, w)
  {
  }

  /** What a worker writes is what it carries, made for the spec it stores; or the old name. */
  lemma WrittenNameIsCarried(run: RunInfo, st: RunStatus, w: Worker)
    requires w.check.Some? && WellFormed(run, st)
    ensures var out := Result(run, st, w);
      Recorded(out.status) ==>
        if Recorded(st) then out.status.extra == st.extra && Carried(run, st, w) == {}
        else && Carried(run, st, w) == {RecordedName(out.status)}
             && out.created.Some? && out.created.value.name == RecordedName(out.status)
             && OwnedBy(run, out.created.value.job)
             && out.status.extra.status.spec == Some(TaskSpec(out.created.value.job.definition))
    ensures !Recorded(Result(run, st, w).status) ==> Carried(run, st, w) == {}
  {
  }

  // ---------- The initial state ----------

  lemma InvInitially(run: RunInfo)
    ensures Inv(run, INITIAL)
  {
  }

  // ---------- The history ----------

  lemma SerialWellFormed(run: RunInfo, s: System, n: nat)
    requires run.creation != ZERO_TIME
    requires Serial(run, s) && n < |s.history|
    ensures WellFormed(run, s.history[n])
  {
    ReplayWellFormed(run, s.log[..n]);
  }

  /** Nothing but a commit writes, and only on top of what its reconcile has read. */
  lemma StepWrites(run: RunInfo, s: System, step: Step)
    requires s.history != [] && Enabled(run, s, step)
    ensures var s' := Apply(run, s, step);
      || (s'.history == s.history && s'.log == s.log)
      || (&& step.Commit? && s.workers[step.id].base == |s.history| - 1 && s.workers[step.id].check.Some?
          && s'.history == s.history + [Result(run, Current(s), s.workers[step.id]).status]
          && Result(run, Current(s), s.workers[step.id]).status != Current(s)
          && s'.log == s.log + [Views(s.workers[step.id].launch, s.workers[step.id].check.value)]
          && s'.jobs == s.jobs)
  {
  }

  lemma SerialExtends(run: RunInfo, s: System, s': System, views: Views)
    requires Serial(run, s)
    requires s'.log == s.log + [views]
    requires s'.history == s.history + [Reconcile(run, Current(s), views).status]
    ensures Serial(run, s')
  {
    var last := |s.log|;
    assert s.log[..last] == s.log && s'.log[..last + 1] == s'.log;
    assert s'.log[..|s'.log| - 1] == s.log;
    forall i | 0 <= i <= last ensures s'.history[i] == Replay(run, s'.log[..i]) {
      assert s'.log[..i] == s.log[..i];
    }
  }

  lemma SerialKept(run: RunInfo, s: System, step: Step)
    requires Serial(run, s) && Enabled(run, s, step)
    ensures Serial(run, Apply(run, s, step))
  {
    StepWrites(run, s, step);
    var s' := Apply(run, s, step);
    if s'.history != s.history {
      SerialExtends(run, s, s', Views(s.workers[step.id].launch, s.workers[step.id].check.value));
    }
  }

  lemma ChangingKept(run: RunInfo, s: System, step: Step)
    requires s.history != [] && Changing(s) && Enabled(run, s, step)
    ensures Changing(Apply(run, s, step))
  {
    StepWrites(run, s, step);
  }

  // ---------- The job runs ----------

  /** Job runs stay, keep their identity, and only gain conditions. */
  predicate JobsGrow(a: map<string, JobRun>, b: map<string, JobRun>) {
    forall n :: n in a ==> n in b && SameIdentity(a[n], b[n]) && NotAfter(a[n].phase, b[n].phase)
  }

  lemma StepGrowsJobs(run: RunInfo, s: System, step: Step)
    requires Enabled(run, s, step)
    ensures JobsGrow(s.jobs, Apply(run, s, step).jobs)
  {
  }

  lemma WorkerStaysOk(run: RunInfo, s: System, s': System, w: Worker)
    requires w.base < |s.history| && s.history <= s'.history
    requires WorkerOk(run, s, w) && JobsGrow(s.jobs, s'.jobs)
    ensures WorkerOk(run, s', w)
  {
  }

  lemma BasesKept(run: RunInfo, s: System, step: Step)
    requires Based(s) && Enabled(run, s, step)
    ensures Based(Apply(run, s, step))
  {
  }

  lemma WorkersKept(run: RunInfo, s: System, step: Step)
    requires Based(s) && WorkersOk(run, s) && Enabled(run, s, step)
    ensures Based(Apply(run, s, step)) && WorkersOk(run, Apply(run, s, step))
  {
    var s' := Apply(run, s, step);
    BasesKept(run, s, step);
    StepGrowsJobs(run, s, step);
    forall id | id in s'.workers ensures WorkerOk(run, s', s'.workers[id]) {
      if id in s.workers && s'.workers[id] == s.workers[id] {
        WorkerStaysOk(run, s, s', s.workers[id]);
      } else if step.Check? {
        assert WorkerOk(run, s, s.workers[id]);
      }
    }
  }

  lemma LogKept(run: RunInfo, s: System, step: Step)
    requires s.history != [] && Based(s) && WorkersOk(run, s) && LogOk(s) && Enabled(run, s, step)
    ensures LogOk(Apply(run, s, step))
  {
  }

  lemma CommitCoheres(run: RunInfo, s: System, s': System, w: Worker)
    requires s.history != [] && w.base == |s.history| - 1 && WorkerOk(run, s, w) && Coherent(run, s)
    requires WellFormed(run, Current(s)) && w.check.Some?
    requires s'.history == s.history + [Result(run, Current(s), w).status] && s'.jobs == s.jobs
    ensures Coherent(run, s')
  {
    WrittenNameIsCarried(run, Current(s), w);
  }

  lemma CoherenceCarriesOver(run: RunInfo, s: System, s': System)
    requires s.history != [] && Coherent(run, s)
    requires s'.history == s.history && JobsGrow(s.jobs, s'.jobs)
    ensures Coherent(run, s')
  {
  }

  lemma CoherenceKept(run: RunInfo, s: System, step: Step)
    requires run.creation != ZERO_TIME
    requires Serial(run, s) && Based(s) && WorkersOk(run, s) && Coherent(run, s)
    requires Enabled(run, s, step)
    ensures Coherent(run, Apply(run, s, step))
  {
    StepGrowsJobs(run, s, step);
    StepWrites(run, s, step);
    if Apply(run, s, step).history == s.history {
      CoherenceCarriesOver(run, s, Apply(run, s, step));
    } else {
      SerialWellFormed(run, s, |s.history| - 1);
      assert WorkerOk(run, s, s.workers[step.id]);
      CommitCoheres(run, s, Apply(run, s, step), s.workers[step.id]);
    }
  }

  // ---------- The accounts ----------

  lemma LaunchOwns(run: RunInfo, s: System, id: nat, base: nat, view: LaunchView)
    requires base < |s.history|
    ensures Owned(run, AfterLaunch(run, s, id, base, view)) ==
      Owned(run, s) + Made(run, s.history[base], Worker(base, view, None))
  {
    CreatesExactlyWhenWanted(run, s.history[base], Views(view, CheckView(map[], false, false)));
  }

  lemma LaunchBalances(run: RunInfo, s: System, id: nat, base: nat, view: LaunchView)
    requires s.history != [] && Based(s) && Accounted(run, s)
    requires base < |s.history| && id !in s.workers
    requires Made(run, s.history[base], Worker(base, view, None)) !! s.jobs.Keys
    ensures var s' := AfterLaunch(run, s, id, base, view);
      Based(s') && Accounted(run, s')
  {
    var st, w := s.history[base], Worker(base, view, None);
    CarriedIsNew(run, st, w);
    LaunchOwns(run, s, id, base, view);
    assert Held(run, AfterLaunch(run, s, id, base, view)) == Held(run, s)[id := Carried(run, st, w)];
    Open(Owned(run, s), CurrentName(s), s.orphans, Held(run, s), id, Made(run, st, w), Carried(run, st, w));
  }

  lemma CheckBalances(run: RunInfo, s: System, id: nat, seen: CheckView)
    requires s.history != [] && Based(s) && Accounted(run, s)
    requires id in s.workers && s.workers[id].check.None?
    ensures Based(AfterCheck(run, s, id, seen)) && Accounted(run, AfterCheck(run, s, id, seen))
  {
    var s' := AfterCheck(run, s, id, seen);
    var w := s.workers[id];
    var kept := Carried(run, s.history[w.base], w.(check := Some(seen)));
    CheckKeepsOrDrops(run, s.history[w.base], w, seen);
    assert Held(run, s') == Held(run, s)[id := kept];
    Shrink(Owned(run, s), CurrentName(s), s.orphans, Held(run, s), id, kept);
  }

  lemma DropBalances(run: RunInfo, s: System, id: nat)
    requires s.history != [] && Based(s) && Accounted(run, s) && id in s.workers
    ensures Based(AfterDrop(run, s, id)) && Accounted(run, AfterDrop(run, s, id))
  {
    assert Held(run, AfterDrop(run, s, id)) == Held(run, s) - {id};
    Close(Owned(run, s), CurrentName(s), s.orphans, Held(run, s), id);
  }

  /** What is recorded after a write: the old name, or the name the writer carried. */
  lemma WriteRecords(run: RunInfo, s: System, s': System, w: Worker)
    requires s.history != [] && w.check.Some? && WellFormed(run, Current(s))
    requires s'.history == s.history + [Result(run, Current(s), w).status]
    requires Evolves(Current(s), Current(s'))
    ensures if Recorded(Current(s)) then CurrentName(s') == CurrentName(s) && Carried(run, Current(s), w) == {}
            else CurrentName(s) == {} && CurrentName(s') == Carried(run, Current(s), w)
  {
    WrittenNameIsCarried(run, Current(s), w);
  }

  lemma WriteBalances(run: RunInfo, s: System, s': System, id: nat)
    requires s.history != [] && Based(s) && Accounted(run, s) && id in s.workers
    requires s.workers[id].base == |s.history| - 1 && s.workers[id].check.Some?
    requires WellFormed(run, Current(s))
    requires s'.history == s.history + [Result(run, Current(s), s.workers[id]).status]
    requires s'.workers == s.workers - {id} && s'.orphans == s.orphans && s'.jobs == s.jobs
    requires Evolves(Current(s), Current(s'))
    ensures Based(s') && Accounted(run, s')
  {
    WriteRecords(run, s, s', s.workers[id]);
    assert Held(run, s') == Held(run, s) - {id};
    Close(Owned(run, s), CurrentName(s), s.orphans, Held(run, s), id);
    assert s.orphans + {} == s.orphans;
  }

  lemma UnchangedBalances(run: RunInfo, s: System, id: nat)
    requires s.history != [] && Based(s) && Accounted(run, s) && id in s.workers
    requires Carried(run, s.history[s.workers[id].base], s.workers[id]) == {}
    ensures var s' := s.(workers := s.workers - {id});
      Based(s') && Accounted(run, s')
  {
    DropBalances(run, s, id);
    assert AfterDrop(run, s, id) == s.(workers := s.workers - {id}, orphans := s.orphans + {});
    assert s.orphans + {} == s.orphans;
  }

  /** The three ways a commit ends, and what is known then. */
  lemma CommitCases(run: RunInfo, s: System, id: nat)
    requires run.creation != ZERO_TIME
    requires Serial(run, s) && Based(s)
    requires id in s.workers && s.workers[id].check.Some?
    ensures var w := s.workers[id]; var st := s.history[w.base]; var s' := AfterCommit(run, s, id);
      || (s' == s.(workers := s.workers - {id}) && Carried(run, st, w) == {})
      || s' == AfterDrop(run, s, id)
      || (&& w.base == |s.history| - 1 && WellFormed(run, st)
          && s'.history == s.history + [Result(run, st, w).status]
          && s'.workers == s.workers - {id} && s'.orphans == s.orphans && s'.jobs == s.jobs
          && Evolves(st, Result(run, st, w).status))
  {
    var w := s.workers[id];
    SerialWellFormed(run, s, w.base);
    WrittenNameIsCarried(run, s.history[w.base], w);
    ReconcileKeepsWellFormed(run, s.history[w.base], Views(w.launch, w.check.value));
  }

  lemma CommitBalances(run: RunInfo, s: System, id: nat)
    requires run.creation != ZERO_TIME
    requires Serial(run, s) && Based(s) && Accounted(run, s)
    requires id in s.workers && s.workers[id].check.Some?
    ensures Based(AfterCommit(run, s, id)) && Accounted(run, AfterCommit(run, s, id))
  {
    var s' := AfterCommit(run, s, id);
    CommitCases(run, s, id);
    if s' == AfterDrop(run, s, id) {
      DropBalances(run, s, id);
    } else if s' == s.(workers := s.workers - {id}) {
      UnchangedBalances(run, s, id);
    } else {
      WriteBalances(run, s, s', id);
    }
  }

  lemma OthersBalance(run: RunInfo, s: System, step: Step)
    requires s.history != [] && Based(s) && Accounted(run, s)
    requires (step.Foreign? || step.Progress?) && Enabled(run, s, step)
    ensures Based(Apply(run, s, step)) && Accounted(run, Apply(run, s, step))
  {
  }

  lemma AccountsKept(run: RunInfo, s: System, step: Step)
    requires run.creation != ZERO_TIME
    requires Serial(run, s) && Based(s) && Accounted(run, s) && Enabled(run, s, step)
    ensures Based(Apply(run, s, step)) && Accounted(run, Apply(run, s, step))
  {
    match step
    case Launch(id, base, view) => LaunchBalances(run, s, id, base, view);
    case Check(id, seen) => CheckBalances(run, s, id, seen);
    case Commit(id) => CommitBalances(run, s, id);
    case Drop(id) => DropBalances(run, s, id);
    case Foreign(_, _) => OthersBalance(run, s, step);
    case Progress(_, _) => OthersBalance(run, s, step);
  }

  lemma StepKeepsInv(run: RunInfo, s: System, step: Step)
    requires run.creation != ZERO_TIME
    requires Inv(run, s) && Enabled(run, s, step)
    ensures Inv(run, Apply(run, s, step))
  {
    SerialKept(run, s, step);
    ChangingKept(run, s, step);
    WorkersKept(run, s, step);
    LogKept(run, s, step);
    CoherenceKept(run, s, step);
    AccountsKept(run, s, step);
  }

  lemma {:induction false} InvAlways(run: RunInfo, steps: seq<Step>)
    requires run.creation != ZERO_TIME
    requires Execute(run, steps).Some?
    ensures Inv(run, Execute(run, steps).value)
  {
    if steps == [] {
      InvInitially(run);
    } else {
      InvAlways(run, steps[..|steps| - 1]);
      StepKeepsInv(run, Execute(run, steps[..|steps| - 1]).value, steps[|steps| - 1]);
    }
  }
}
