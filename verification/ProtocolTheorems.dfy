/** What the protocol guarantees after any number of steps, and what it does not. */
module ProtocolTheorems {
  import opened Types
  import opened ReconcileSpec
  import opened ReconcileProperties
  import opened SequentialHistory
  import opened Protocol
  import opened ProtocolInvariant
  import opened Ledger

  predicate Reaches(run: RunInfo, steps: seq<Step>, s: System) {
    run.creation != ZERO_TIME && Execute(run, steps) == Some(s)
  }

  // ---------- The committed statuses ----------

  /** Whatever overlaps, the committed statuses are those of a sequential run of the reconciles that
      wrote them, and each of these has changed something. */
  lemma CommitsAreSequential(run: RunInfo, steps: seq<Step>, s: System)
    requires Reaches(run, steps, s)
    ensures |s.history| == |s.log| + 1
    ensures forall i :: 0 <= i <= |s.log| ==> s.history[i] == Replay(run, s.log[..i])
    ensures forall i :: 0 <= i < |s.log| ==> s.history[i + 1] == Reconcile(run, s.history[i], s.log[i]).status
    ensures forall i :: 0 < i < |s.history| ==> s.history[i] != s.history[i - 1]
  {
    InvAlways(run, steps);
    forall i | 0 <= i < |s.log| ensures s.history[i + 1] == Reconcile(run, s.history[i], s.log[i]).status {
      assert s.log[..i + 1][..i] == s.log[..i];
    }
  }

  /** Every committed status is legal; start time, task spec and job run name are written once; a
      final condition stays; the rank never grows. */
  lemma CommitsEvolve(run: RunInfo, steps: seq<Step>, s: System, i: nat, j: nat)
    requires Reaches(run, steps, s)
    requires i <= j < |s.history|
    ensures WellFormed(run, s.history[i]) && Evolves(s.history[i], s.history[j])
  {
    InvAlways(run, steps);
    SerialWellFormed(run, s, i);
    ReplayEvolves(run, s.log[..j], i);
    assert s.log[..j][..i] == s.log[..i];
  }

  lemma CurrentEvolves(run: RunInfo, steps: seq<Step>, s: System, i: nat)
    requires Reaches(run, steps, s) && i < |s.history|
    ensures Evolves(s.history[i], Current(s)) && WellFormed(run, s.history[i]) && WellFormed(run, Current(s))
  {
    CommitsEvolve(run, steps, s, i, |s.history| - 1);
    InvAlways(run, steps);
    SerialWellFormed(run, s, |s.history| - 1);
  }

  /** Two helpful commits end the Run, whatever else was committed in between. */
  lemma CommitsProgress(run: RunInfo, steps: seq<Step>, s: System)
    requires Reaches(run, steps, s)
    ensures Rank(Current(s)) + HelpfulCount(run, s.log) <= 2
    ensures Count(AllEmissions(run, s.log), AnnouncesEnd) == if IsDone(Current(s)) then 1 else 0
  {
    InvAlways(run, steps);
    assert s.log[..|s.log|] == s.log;
    TwoHelpfulReconcilesSuffice(run, s.log);
    EndIsAnnouncedOnce(run, s.log);
  }

  // ---------- Recorded job runs ----------

  lemma RecordedJobRunIsOurs(run: RunInfo, steps: seq<Step>, s: System)
    requires Reaches(run, steps, s) && Recorded(Current(s))
    ensures var st := Current(s);
      && st.extra.status.spec.Some?
      && RecordedName(st) in s.jobs
      && OwnedBy(run, s.jobs[RecordedName(st)])
      && s.jobs[RecordedName(st)].definition == st.extra.status.spec.value.jobName
      && HasStarted(st)
      && GateOf(run.spec).Accepted?
  {
    InvAlways(run, steps);
    assert s.log[..|s.log|] == s.log;
    ForeignRunsAreUntouched(run, s.log);
    SerialWellFormed(run, s, |s.history| - 1);
  }

  /** A committed end is explained by the reconcile that wrote it. */
  lemma CommittedEndIsExplained(run: RunInfo, steps: seq<Step>, s: System) returns (n: nat)
    requires Reaches(run, steps, s) && IsDone(Current(s))
    ensures n < |s.log| < |s.history| && Explained(run, s.history[n], s.log[n], Current(s))
    ensures Lagging(s.log[n].check.cache, s.jobs)
  {
    InvAlways(run, steps);
    assert s.log[..|s.log|] == s.log;
    n := VerdictWasObserved(run, s.log);
  }

  /** A committed success is true: a reconcile saw the recorded job run complete and not failed, and
      the job run is complete in Code Engine, although the view may lag. */
  lemma SuccessIsTrue(run: RunInfo, steps: seq<Step>, s: System) returns (n: nat)
    requires Reaches(run, steps, s)
    requires IsDone(Current(s)) && Current(s).condition.value.truth.True?
    ensures n < |s.log| && Observed(Current(s), s.log[n].check, Phase(true, false))
    ensures RecordedName(Current(s)) in s.jobs && s.jobs[RecordedName(Current(s))].phase.complete
  {
    n := CommittedEndIsExplained(run, steps, s);
    CurrentEvolves(run, steps, s, n);
  }

  /** A committed failure is true as well: the recorded job run has failed in Code Engine, or the
      reconcile that wrote the failure has met the error that its reason names. */
  lemma FailureIsTrue(run: RunInfo, steps: seq<Step>, s: System) returns (n: nat)
    requires Reaches(run, steps, s)
    requires IsDone(Current(s)) && Current(s).condition.value.truth.False?
    ensures n < |s.log| < |s.history|
    ensures var error := Reconcile(run, s.history[n], s.log[n]).error;
      match Current(s).condition.value.reason
      case Failed =>
        || error == Some(EncodeError)
        || (&& SeenFailed(Current(s), s.log[n].check)
            && RecordedName(Current(s)) in s.jobs && s.jobs[RecordedName(Current(s))].phase.failed)
      case CouldntGetTask => error == Some(MissingTask)
      case FailedToStartJobRun => error == Some(MissingJobDefinition) || error == Some(CreateError)
      case _ => false
  {
    n := CommittedEndIsExplained(run, steps, s);
    CurrentEvolves(run, steps, s, n);
  }

  // ---------- Creation accounting ----------

  /** The steps after which a job run just created can no longer be recorded: the answer to the create
      got lost, an error of the check made the reconcile return early, the write came too late, or
      the write or its process was lost. */
  predicate Losing(run: RunInfo, s: System, step: Step)
    requires Enabled(run, s, step) && Based(s)
  {
    match step
    case Launch(id, base, view) =>
      Made(run, s.history[base], Worker(base, view, None)) != {} && view.create.ResponseLost?
    case Check(id, seen) =>
      Carried(run, s.history[s.workers[id].base], s.workers[id]) != {} && (seen.lookupFails || seen.encodeFails)
    case Commit(id) =>
      Carried(run, s.history[s.workers[id].base], s.workers[id]) != {} && s.workers[id].base != |s.history| - 1
    case Drop(id) =>
      Carried(run, s.history[s.workers[id].base], s.workers[id]) != {}
    case Foreign(_, _) => false
    case Progress(_, _) => false
  }

  function Losses(run: RunInfo, steps: seq<Step>): nat
    requires Execute(run, steps).Some?
  {
    if steps == [] then 0
    else
      var front := steps[..|steps| - 1];
      var s := Execute(run, front).value;
      Losses(run, front) + if Based(s) && Losing(run, s, steps[|steps| - 1]) then 1 else 0
  }

  lemma AtMostOneCarried(run: RunInfo, st: RunStatus, w: Worker)
    ensures |Made(run, st, w)| <= 1 && |Carried(run, st, w)| <= 1
    ensures Carried(run, st, w) != {} ==> |Carried(run, st, w)| == 1
  {
  }

  lemma LostAtLaunch(run: RunInfo, st: RunStatus, w: Worker)
    requires w.check.None?
    ensures |Made(run, st, w) - Carried(run, st, w)| ==
      if Made(run, st, w) != {} && w.launch.create.ResponseLost? then 1 else 0
  {
  }

  lemma LostAtCheck(run: RunInfo, st: RunStatus, w: Worker, seen: CheckView)
    requires w.check.None?
    ensures |Carried(run, st, w) - Carried(run, st, w.(check := Some(seen)))| ==
      if Carried(run, st, w) != {} && (seen.lookupFails || seen.encodeFails) then 1 else 0
  {
    var w' := w.(check := Some(seen));
    if Carried(run, st, w) != {} {
      NameSurvivesExactly(run, st, Views(w.launch, seen));
      CreatesExactlyWhenWanted(run, st, Views(w.launch, seen));
      CarriedIsNew(run, st, w);
      CarriedIsNew(run, st, w');
      var name := LaunchRun(run, st, w.launch).created.value.name;
      if seen.lookupFails || seen.encodeFails {
        assert Carried(run, st, w) - Carried(run, st, w') == {name};
      } else {
        assert Carried(run, st, w) - Carried(run, st, w') == {};
      }
    }
  }

  lemma OneOrphanPerLoss(run: RunInfo, s: System, step: Step)
    requires run.creation != ZERO_TIME
    requires Serial(run, s) && Based(s) && Accounted(run, s) && Owned(run, s) <= s.jobs.Keys
    requires Enabled(run, s, step)
    ensures |Apply(run, s, step).orphans| == |s.orphans| + if Losing(run, s, step) then 1 else 0
  {
    match step {
      case Launch(id, base, view) =>
        var w := Worker(base, view, None);
        LostAtLaunch(run, s.history[base], w);
        assert s.orphans !! Made(run, s.history[base], w);
      case Check(id, seen) =>
        HeldIsNotOrphaned(run, s, id);
        LostAtCheck(run, s.history[s.workers[id].base], s.workers[id], seen);
      case Commit(id) =>
        HeldIsNotOrphaned(run, s, id);
        CommitOrphans(run, s, id);
      case Drop(id) =>
        HeldIsNotOrphaned(run, s, id);
        AtMostOneCarried(run, s.history[s.workers[id].base], s.workers[id]);
      case Foreign(_, _) =>
      case Progress(_, _) =>
    }
  }

  lemma HeldIsNotOrphaned(run: RunInfo, s: System, id: nat)
    requires s.history != [] && Based(s) && Accounted(run, s) && id in s.workers
    ensures s.orphans !! Carried(run, s.history[s.workers[id].base], s.workers[id])
  {
    assert Held(run, s)[id] <= HeldNames(Held(run, s));
  }

  lemma UnchangedCarriesNothing(run: RunInfo, st: RunStatus, w: Worker)
    requires w.check.Some? && WellFormed(run, st) && Result(run, st, w).status == st
    ensures Carried(run, st, w) == {}
  {
    WrittenNameIsCarried(run, st, w);
  }

  lemma SizeOfUnion(a: set<string>, b: set<string>)
    requires a !! b && |b| <= 1
    ensures |a + b| == |a| + if b != {} then 1 else 0
  {
  }

  lemma CommitOrphans(run: RunInfo, s: System, id: nat)
    requires run.creation != ZERO_TIME
    requires Serial(run, s) && Based(s) && Accounted(run, s)
    requires Enabled(run, s, Commit(id))
    ensures |Apply(run, s, Commit(id)).orphans| == |s.orphans| + if Losing(run, s, Commit(id)) then 1 else 0
  {
    var w := s.workers[id];
    var st := s.history[w.base];
    AtMostOneCarried(run, st, w);
    HeldIsNotOrphaned(run, s, id);
    SizeOfUnion(s.orphans, Carried(run, st, w));
    if Result(run, st, w).status == st {
      SerialWellFormed(run, s, w.base);
      UnchangedCarriesNothing(run, st, w);
    }
  }

  lemma {:induction false} OrphansCountLosses(run: RunInfo, steps: seq<Step>)
    requires run.creation != ZERO_TIME
    requires Execute(run, steps).Some?
    ensures |Execute(run, steps).value.orphans| == Losses(run, steps)
  {
    if steps != [] {
      var front := steps[..|steps| - 1];
      InvAlways(run, front);
      OrphansCountLosses(run, front);
      OneOrphanPerLoss(run, Execute(run, front).value, steps[|steps| - 1]);
    }
  }

  /** The job runs of this Run are the recorded one, one for each loss, and those that reconciles
      under way still carry.  So there are never more than one, plus the losses, plus the reconciles
      under way; with neither losses nor reconciles under way there is exactly the recorded one. */
  lemma JobRunsAreAccountedFor(run: RunInfo, steps: seq<Step>, s: System)
    requires Reaches(run, steps, s)
    ensures Based(s)
    ensures |Owned(run, s)| ==
      (if Recorded(Current(s)) then 1 else 0) + Losses(run, steps) + |HeldNames(Held(run, s))|
    ensures |Owned(run, s)| <= 1 + Losses(run, steps) + |s.workers|
    ensures Losses(run, steps) == 0 && s.workers == map[] ==>
      Owned(run, s) == if Recorded(Current(s)) then {RecordedName(Current(s))} else {}
  {
    InvAlways(run, steps);
    OrphansCountLosses(run, steps);
    Total(Owned(run, s), CurrentName(s), s.orphans, Held(run, s));
    forall id | id in Held(run, s) ensures |Held(run, s)[id]| <= 1 {
      AtMostOneCarried(run, s.history[s.workers[id].base], s.workers[id]);
    }
    AtMostOneEach(Held(run, s));
    assert Held(run, s).Keys == s.workers.Keys;
    assert |Held(run, s)| == |Held(run, s).Keys| && |s.workers| == |s.workers.Keys|;
    if Losses(run, steps) == 0 && s.workers == map[] {
      assert HeldNames(Held(run, s)) == {};
      assert s.orphans == {};
    }
  }

  /** Job runs of others can appear at any time, and count neither here nor there. */
  lemma ForeignJobRunsDoNotCount(run: RunInfo, steps: seq<Step>, s: System, name: Name, job: JobRun)
    requires Reaches(run, steps, s) && name !in s.jobs
    requires OWNER_LABEL in job.labels && OWNER_NAMESPACE_LABEL in job.labels ==>
      job.labels[OWNER_LABEL] != run.name || job.labels[OWNER_NAMESPACE_LABEL] != run.namespace
    ensures Enabled(run, s, Foreign(name, job))
    ensures var s' := Apply(run, s, Foreign(name, job));
      && s'.jobs == s.jobs[name := job] && Owned(run, s') == Owned(run, s)
      && s'.history == s.history && s'.workers == s.workers && s'.orphans == s.orphans
  {
  }

  /** An orphan was never recorded, in no committed status. */
  lemma OrphansWereNeverRecorded(run: RunInfo, steps: seq<Step>, s: System, i: nat)
    requires Reaches(run, steps, s) && i < |s.history|
    ensures RecordedName(s.history[i]) !in s.orphans
    ensures s.orphans <= Owned(run, s)
  {
    InvAlways(run, steps);
    CommitsEvolve(run, steps, s, i, |s.history| - 1);
    if Recorded(s.history[i]) {
      assert RecordedName(s.history[i]) in CurrentName(s);
    } else {
      assert forall n :: n in s.orphans ==> n in Owned(run, s);
      OwnedNamesAreNotEmpty(run, steps);
    }
  }

  lemma {:induction false} OwnedNamesAreNotEmpty(run: RunInfo, steps: seq<Step>)
    requires Execute(run, steps).Some?
    ensures "" !in Execute(run, steps).value.jobs
  {
    if steps != [] {
      OwnedNamesAreNotEmpty(run, steps[..|steps| - 1]);
    }
  }

  // ---------- After the end ----------

  lemma EndIsKept(run: RunInfo, steps: seq<Step>, s: System, step: Step)
    requires Reaches(run, steps, s) && IsDone(Current(s)) && Enabled(run, s, step)
    ensures Current(Apply(run, s, step)) == Current(s)
    ensures HasStarted(Current(s))
  {
    var s', last := Apply(run, s, step), |s.history| - 1;
    assert (steps + [step])[..|steps + [step]| - 1] == steps;
    assert s'.history[last] == Current(s);
    CurrentEvolves(run, steps + [step], s', last);
  }

  /** Once a final condition is committed, the status never changes again.  A reconcile that still
      creates a job run has read an outdated status, and creates exactly when that status wants one;
      its write will not go through. */
  lemma AfterTheEnd(run: RunInfo, steps: seq<Step>, s: System, step: Step)
    requires Reaches(run, steps, s) && IsDone(Current(s)) && Enabled(run, s, step)
    ensures Current(Apply(run, s, step)) == Current(s)
    ensures step.Launch? ==>
      var made := Made(run, s.history[step.base], Worker(step.base, step.view, None));
      && (made != {} <==> WantsJobRun(run, s.history[step.base], step.view) && !step.view.create.Refused?)
      && (made != {} ==> step.base < |s.history| - 1)
  {
    EndIsKept(run, steps, s, step);
    if step.Launch? {
      CreatesExactlyWhenWanted(run, s.history[step.base], Views(step.view, CheckView(map[], false, false)));
    }
  }
}
