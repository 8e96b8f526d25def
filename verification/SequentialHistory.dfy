/** Runs of any length in which every reconcile reads what the previous one wrote. */
module SequentialHistory {
  import opened Types
  import opened ReconcileSpec
  import opened ReconcileProperties

  /** The status after the reconciles of `log`, from a Run that nobody has touched. */
  function Replay(run: RunInfo, log: seq<Views>): RunStatus {
    if log == [] then EMPTY_STATUS
    else Reconcile(run, Replay(run, log[..|log| - 1]), log[|log| - 1]).status
  }

  lemma {:induction false} ReplayWellFormed(run: RunInfo, log: seq<Views>)
    requires run.creation != ZERO_TIME
    ensures WellFormed(run, Replay(run, log))
  {
    if log != [] {
      ReplayWellFormed(run, log[..|log| - 1]);
      ReconcileKeepsWellFormed(run, Replay(run, log[..|log| - 1]), log[|log| - 1]);
    }
  }

  lemma {:induction false} ReplayEvolves(run: RunInfo, log: seq<Views>, n: nat)
    requires run.creation != ZERO_TIME
    requires n <= |log|
    ensures Evolves(Replay(run, log[..n]), Replay(run, log))
  {
    if n == |log| {
      assert log[..n] == log;
    } else {
      var front := log[..|log| - 1];
      ReplayEvolves(run, front, n);
      assert front[..n] == log[..n];
      ReplayWellFormed(run, front);
      ReconcileKeepsWellFormed(run, Replay(run, front), log[|log| - 1]);
    }
  }

  /** A Run that has been written at all is one of ours. */
  lemma {:induction false} ForeignRunsAreUntouched(run: RunInfo, log: seq<Views>)
    ensures !GateOf(run.spec).Accepted? ==> Replay(run, log) == EMPTY_STATUS
  {
    if log != [] {
      ForeignRunsAreUntouched(run, log[..|log| - 1]);
    }
  }

  /** An embedded spec that cannot be parsed never fails the Run: it stays as it was started, without
      an end and without a job run. */
  lemma {:induction false} UnparsableSpecsNeverEnd(run: RunInfo, log: seq<Views>)
    requires run.creation != ZERO_TIME
    requires run.spec.embedded.Some? && run.spec.embedded.value.raw.Unparsable?
    ensures var st := Replay(run, log);
      st == EMPTY_STATUS || (st.condition == Some(Condition(Unknown, Started)) && st.extra == NoExtra && HasStarted(st))
  {
    if log != [] {
      UnparsableSpecsNeverEnd(run, log[..|log| - 1]);
    }
  }

  /** A recorded job run shows that the task could be resolved, so the Run names one properly. */
  lemma {:induction false} RecordedRunsNameATask(run: RunInfo, log: seq<Views>)
    requires Recorded(Replay(run, log))
    ensures GateOf(run.spec).Accepted?
    ensures if run.spec.embedded.Some? then run.spec.embedded.value.raw.Parsed?
            else run.spec.ref.Some? && run.spec.ref.value.name != ""
  {
    if log != [] {
      var front, last := log[..|log| - 1], log[|log| - 1];
      if Recorded(Replay(run, front)) {
        RecordedRunsNameATask(run, front);
      } else {
        CreatesExactlyWhenWanted(run, Replay(run, front), last);
      }
    }
  }

  // ---------- What is announced ----------

  /** The end of a Run: a final condition after one that was not. */
  predicate AnnouncesEnd(e: Emission) {
    !Terminal(e.before) && Terminal(e.after)
  }

  /** The start of a Run: a condition where there was none. */
  predicate AnnouncesStart(e: Emission) {
    e.before.None? && e.after.Some?
  }

  function Count(es: seq<Emission>, p: Emission -> bool): nat {
    if es == [] then 0 else Count(es[..|es| - 1], p) + if p(es[|es| - 1]) then 1 else 0
  }

  lemma {:induction false} CountOfConcat(a: seq<Emission>, b: seq<Emission>, p: Emission -> bool)
    ensures Count(a + b, p) == Count(a, p) + Count(b, p)
  {
    if b == [] {
      assert a + b == a;
    } else {
      assert (a + b)[..|a + b| - 1] == a + b[..|b| - 1];
      CountOfConcat(a, b[..|b| - 1], p);
    }
  }

  lemma CountOfTwo(a: Emission, b: Emission, p: Emission -> bool)
    ensures Count([b], p) == if p(b) then 1 else 0
    ensures Count([a, b], p) == (if p(a) then 1 else 0) + (if p(b) then 1 else 0)
  {
  }

  function AllEmissions(run: RunInfo, log: seq<Views>): seq<Emission> {
    if log == [] then []
    else
      var front := log[..|log| - 1];
      AllEmissions(run, front) + Emissions(run, Replay(run, front), log[|log| - 1])
  }

  lemma OneReconcileAnnounces(run: RunInfo, st: RunStatus, views: Views)
    requires run.creation != ZERO_TIME && WellFormed(run, st)
    ensures Count(Emissions(run, st, views), AnnouncesEnd) ==
      if !IsDone(st) && IsDone(Reconcile(run, st, views).status) then 1 else 0
    ensures Count(Emissions(run, st, views), AnnouncesStart) ==
      if !HasStarted(st) && GateOf(run.spec).Accepted? then 2 else 0
    ensures HasStarted(Reconcile(run, st, views).status) == (HasStarted(st) || GateOf(run.spec).Accepted?)
  {
    var first := Emission(None, Initialize(run, st, views.launch.now).condition);
    var last := Emission(st.condition, Reconcile(run, st, views).status.condition);
    ReconcileKeepsWellFormed(run, st, views);
    if !GateOf(run.spec).Accepted? {
      GateIsExact(run, st, views);
    } else {
      CountOfTwo(first, last, AnnouncesEnd);
      CountOfTwo(first, last, AnnouncesStart);
      if !HasStarted(st) {
        StartTimeIsLatest(run, st, views);
        assert Emissions(run, st, views) == [first, last];
        assert st == EMPTY_STATUS && !Terminal(first.after);
      } else {
        assert Emissions(run, st, views) == [last];
      }
    }
  }

  /** Over any history, the end is announced exactly once if the Run has ended, also when it starts and
      ends in one reconcile, and not at all otherwise.  The start is always announced twice. */
  lemma {:induction false} EndIsAnnouncedOnce(run: RunInfo, log: seq<Views>)
    requires run.creation != ZERO_TIME
    ensures Count(AllEmissions(run, log), AnnouncesEnd) == if IsDone(Replay(run, log)) then 1 else 0
    ensures Count(AllEmissions(run, log), AnnouncesStart) == if HasStarted(Replay(run, log)) then 2 else 0
  {
    if log != [] {
      var front, last := log[..|log| - 1], log[|log| - 1];
      EndIsAnnouncedOnce(run, front);
      ReplayWellFormed(run, front);
      OneReconcileAnnounces(run, Replay(run, front), last);
      ReconcileKeepsWellFormed(run, Replay(run, front), last);
      var es := Emissions(run, Replay(run, front), last);
      CountOfConcat(AllEmissions(run, front), es, AnnouncesEnd);
      CountOfConcat(AllEmissions(run, front), es, AnnouncesStart);
    }
  }

  /** Over any history of an accepted Run, the events are its history: first the start, and then for
      each reconcile the condition that it found and the one that it left. */
  lemma {:induction false} EventsTellTheHistory(run: RunInfo, log: seq<Views>)
    requires run.creation != ZERO_TIME && GateOf(run.spec).Accepted? && log != []
    ensures var events := AllEmissions(run, log);
      && |events| == |log| + 1
      && events[0] == Emission(None, Some(Condition(Unknown, Started)))
      && forall i :: 0 <= i < |log| ==>
           events[i + 1] == Emission(Replay(run, log[..i]).condition, Replay(run, log[..i + 1]).condition)
  {
    var front, last := log[..|log| - 1], log[|log| - 1];
    assert log[..|front|] == front && log[..|log|] == log;
    ReplayWellFormed(run, front);
    if front != [] {
      EventsTellTheHistory(run, front);
      StartedOnceReconciled(run, front);
      forall i | 0 <= i < |front|
        ensures AllEmissions(run, log)[i + 1] ==
                Emission(Replay(run, log[..i]).condition, Replay(run, log[..i + 1]).condition)
      {
        assert front[..i] == log[..i] && front[..i + 1] == log[..i + 1];
      }
    }
  }

  lemma StartedOnceReconciled(run: RunInfo, log: seq<Views>)
    requires run.creation != ZERO_TIME && GateOf(run.spec).Accepted? && log != []
    ensures HasStarted(Replay(run, log))
  {
    StartTimeIsLatest(run, Replay(run, log[..|log| - 1]), log[|log| - 1]);
  }

  lemma OneReconcileShows(run: RunInfo, st: RunStatus, views: Views, e: Emission)
    requires WellFormed(run, st) && e in Emissions(run, st, views) && Terminal(e.after)
    ensures e.after == Reconcile(run, st, views).status.condition
  {
  }

  /** So an event that shows an end, as one does that announces it, shows the end that the Run has come
      to. */
  lemma {:induction false} EndIsAnnouncedAsItIs(run: RunInfo, log: seq<Views>, e: Emission)
    requires run.creation != ZERO_TIME && e in AllEmissions(run, log) && Terminal(e.after)
    ensures e.after == Replay(run, log).condition
  {
    var front, last := log[..|log| - 1], log[|log| - 1];
    ReplayWellFormed(run, front);
    if e in AllEmissions(run, front) {
      EndIsAnnouncedAsItIs(run, front, e);
      ReconcileKeepsWellFormed(run, Replay(run, front), last);
    } else {
      OneReconcileShows(run, Replay(run, front), last, e);
    }
  }

  // ---------- Verdicts ----------

  /** Every end was brought about by one reconcile, the last that changed the status. */
  lemma {:induction false} EndWasCaused(run: RunInfo, log: seq<Views>) returns (n: nat)
    requires run.creation != ZERO_TIME && IsDone(Replay(run, log))
    ensures n < |log| && !IsDone(Replay(run, log[..n])) && WellFormed(run, Replay(run, log[..n]))
    ensures Replay(run, log) == Reconcile(run, Replay(run, log[..n]), log[n]).status
  {
    var front := log[..|log| - 1];
    ReplayWellFormed(run, front);
    if IsDone(Replay(run, front)) {
      DoneIsQuiet(run, Replay(run, front), log[|log| - 1]);
      n := EndWasCaused(run, front);
      assert front[..n] == log[..n];
    } else {
      n := |log| - 1;
    }
  }

  /** A success was observed: the reconcile that ended the Run saw the recorded job run complete and not
      failed.  A failure was observed as well, or an error of that reconcile explains it. */
  lemma VerdictWasObserved(run: RunInfo, log: seq<Views>) returns (n: nat)
    requires run.creation != ZERO_TIME && IsDone(Replay(run, log))
    ensures n < |log| && !IsDone(Replay(run, log[..n]))
    ensures Explained(run, Replay(run, log[..n]), log[n], Replay(run, log))
  {
    n := EndWasCaused(run, log);
    EndsHaveACause(run, Replay(run, log[..n]), log[n]);
  }

  /** The reconcile of `before` has ended the Run, and what it met is the reason that is written down. */
  predicate Explained(run: RunInfo, before: RunStatus, views: Views, ended: RunStatus) {
    var error := Reconcile(run, before, views).error;
    && ended == Reconcile(run, before, views).status && ended.condition.Some?
    && match ended.condition.value.reason
       case Succeeded => Observed(ended, views.check, Phase(true, false))
       case Failed => error == Some(EncodeError) || (error.None? && SeenFailed(ended, views.check))
       case CouldntGetTask => error == Some(MissingTask)
       case FailedToStartJobRun => error == Some(MissingJobDefinition) || error == Some(CreateError)
       case _ => false
  }

  // ---------- Progress ----------

  /** How many reconciles of the log could do their work when their turn came. */
  function HelpfulCount(run: RunInfo, log: seq<Views>): nat {
    if log == [] then 0
    else
      var front := log[..|log| - 1];
      HelpfulCount(run, front) + if Helpful(run, Replay(run, front), log[|log| - 1]) then 1 else 0
  }

  /** Whatever the other reconciles meet, at most two can be helpful; the second one ends the Run. */
  lemma {:induction false} TwoHelpfulReconcilesSuffice(run: RunInfo, log: seq<Views>)
    requires run.creation != ZERO_TIME
    ensures Rank(Replay(run, log)) + HelpfulCount(run, log) <= 2
    ensures HelpfulCount(run, log) >= 2 ==> IsDone(Replay(run, log))
  {
    if log != [] {
      var front := log[..|log| - 1];
      var last := log[|log| - 1];
      TwoHelpfulReconcilesSuffice(run, front);
      ReplayWellFormed(run, front);
      ReconcileKeepsWellFormed(run, Replay(run, front), last);
      if Helpful(run, Replay(run, front), last) {
        HelpfulReconcileLowersRank(run, Replay(run, front), last);
      }
    }
  }
}
