/** One controller process with its informers and its work queue, around the protocol: nothing that
    needs another reconcile is ever forgotten.

    The queue is that of one key.  A key that is added while a reconcile is under way stays dirty;
    a reconcile that ends with an error, or whose write fails, is retried later.  An informer first
    changes its cache and tells its handlers some time after.  Other replicas and Code Engine take
    any other step of the protocol at any time. */
module Wakeup {
  import opened Types
  import opened ReconcileSpec
  import opened ReconcileProperties
  import opened SequentialHistory
  import opened Protocol
  import opened ProtocolInvariant
  import opened ProtocolTheorems
  import opened Routing

  /** `cache` is the job run lister, `seen` the version of the Run in the Run lister; `jobEvents` and
      `runEvent` are notifications not yet delivered. */
  datatype Controller = Controller(sys: System, cache: map<string, Phase>, seen: nat,
                                   dirty: bool, active: Option<nat>, retry: bool,
                                   jobEvents: set<string>, runEvent: bool)

  datatype Move =
    | Take(id: nat, view: LaunchView)
    | Look(lookupFails: bool, encodeFails: bool)
    | Write
    | LoseWrite
    | Retry
    | SeeRun(version: nat)
    | TellRun
    | SeeJob(job: Name, phase: Phase)
    | ForgetJob(job: Name)
    | TellJob(job: Name)
    | Restart(version: nat, known: map<string, Phase>)
    | Elsewhere(step: Step)

  const FRESH := Controller(INITIAL, map[], 0, false, None, false, {}, true)

  function Last(c: Controller): int {
    |c.sys.history| - 1
  }

  /** The step of the protocol that a move stands for. */
  function StepOf(c: Controller, move: Move): Option<Step>
    requires (move.Look? || move.Write? || move.LoseWrite?) ==> c.active.Some?
  {
    match move
    case Take(id, view) => Some(Launch(id, c.seen, view))
    case Look(lookupFails, encodeFails) => Some(Check(c.active.value, CheckView(c.cache, lookupFails, encodeFails)))
    case Write => Some(Commit(c.active.value))
    case LoseWrite => Some(Drop(c.active.value))
    case Restart(_, _) => if c.active.Some? then Some(Drop(c.active.value)) else None
    case Elsewhere(step) => Some(step)
    case _ => None
  }

  /** Other replicas leave our reconcile alone. */
  predicate Untouched(active: Option<nat>, step: Step) {
    step.Check? || step.Commit? || step.Drop? ==> Some(step.id) != active
  }

  predicate CanMove(run: RunInfo, c: Controller, move: Move) {
    && (match move
        case Take(_, _) => c.dirty && c.active.None?
        case Look(_, _) => c.active.Some?
        case Write => c.active.Some?
        case LoseWrite => c.active.Some? && c.active.value in c.sys.workers && c.sys.workers[c.active.value].check.Some?
        case Retry => c.retry
        case SeeRun(version) => c.seen < version <= Last(c)
        case TellRun => c.runEvent
        case SeeJob(name, phase) => name in c.sys.jobs && NotAfter(phase, c.sys.jobs[name].phase)
        case ForgetJob(name) => name in c.cache
        case TellJob(name) => name in c.jobEvents
        case Restart(version, known) => version <= Last(c) && Lagging(known, c.sys.jobs)
        case Elsewhere(step) => Untouched(c.active, step))
    && (StepOf(c, move).Some? ==> Enabled(run, c.sys, StepOf(c, move).value))
  }

  /** Whether our reconcile ends with something to retry: an error, or a write that came too late. */
  predicate Fails(run: RunInfo, c: Controller)
    requires c.active.Some? && Enabled(run, c.sys, Commit(c.active.value))
  {
    var w := c.sys.workers[c.active.value];
    var out := Result(run, c.sys.history[w.base], w);
    out.error.Some? || (out.status != c.sys.history[w.base] && w.base != Last(c))
  }

  predicate TellsUs(run: RunInfo, c: Controller, name: string) {
    && name in c.sys.jobs
    && FilterJobRunRef(JobRunObject(c.sys.jobs[name]))
    && OwnerKey(c.sys.jobs[name]) == RunKey(run)
  }

  function Moved(run: RunInfo, c: Controller, move: Move): Controller
    requires CanMove(run, c, move)
  {
    var sys := if StepOf(c, move).Some? then Apply(run, c.sys, StepOf(c, move).value) else c.sys;
    match move
    case Take(id, _) => c.(sys := sys, dirty := false, active := Some(id))
    case Look(_, _) => c.(sys := sys)
    case Write => c.(sys := sys, active := None, retry := c.retry || Fails(run, c))
    case LoseWrite => c.(sys := sys, active := None, retry := true)
    case Retry => c.(retry := false, dirty := true)
    case SeeRun(version) => c.(seen := version, runEvent := true)
    case TellRun => c.(runEvent := false, dirty := c.dirty || FilterRunRef(run.spec))
    case SeeJob(name, phase) => c.(cache := c.cache[name := phase], jobEvents := c.jobEvents + {name})
    case ForgetJob(name) => c.(cache := c.cache - {name}, jobEvents := c.jobEvents + {name})
    case TellJob(name) => c.(jobEvents := c.jobEvents - {name}, dirty := c.dirty || TellsUs(run, c, name))
    case Restart(version, known) => Controller(sys, known, version, false, None, false, known.Keys, true)
    case Elsewhere(_) => c.(sys := sys)
  }

  function Moves(run: RunInfo, moves: seq<Move>): (r: Option<Controller>)
    ensures r.Some? ==> r.value.sys.history != []
  {
    if moves == [] then Some(FRESH)
    else
      var before := Moves(run, moves[..|moves| - 1]);
      var last := moves[|moves| - 1];
      if before.Some? && CanMove(run, before.value, last) then Some(Moved(run, before.value, last)) else None
  }

  /** Whatever the controller and the others do is a run of the protocol, so all that holds of the
      protocol holds here. */
  lemma {:induction false} MovesFollowTheProtocol(run: RunInfo, moves: seq<Move>) returns (steps: seq<Step>)
    requires Moves(run, moves).Some?
    ensures Execute(run, steps) == Some(Moves(run, moves).value.sys)
  {
    if moves == [] {
      steps := [];
    } else {
      var front, last := moves[..|moves| - 1], moves[|moves| - 1];
      steps := MovesFollowTheProtocol(run, front);
      var c := Moves(run, front).value;
      if StepOf(c, last).Some? {
        var step := StepOf(c, last).value;
        assert (steps + [step])[..|steps + [step]| - 1] == steps;
        steps := steps + [step];
      }
    }
  }

  lemma OthersCanStep(run: RunInfo, s: System, step: Step)
    requires Enabled(run, s, step)
    ensures CanMove(run, FRESH.(sys := s), Elsewhere(step))
    ensures Moved(run, FRESH.(sys := s), Elsewhere(step)) == FRESH.(sys := Apply(run, s, step))
  {
  }

  /** And the other way: every run of the protocol can happen around an idle controller. */
  lemma {:induction false} ProtocolIsCovered(run: RunInfo, steps: seq<Step>, s: System) returns (moves: seq<Move>)
    requires Execute(run, steps) == Some(s)
    ensures Moves(run, moves) == Some(FRESH.(sys := s))
  {
    if steps == [] {
      moves := [];
    } else {
      var before := Execute(run, steps[..|steps| - 1]).value;
      var front := ProtocolIsCovered(run, steps[..|steps| - 1], before);
      OthersCanStep(run, before, steps[|steps| - 1]);
      var done;
      moves, done := OneMove(run, front, FRESH.(sys := before), Elsewhere(steps[|steps| - 1]));
    }
  }

  // ---------- The invariant ----------

  /** The Run is unfinished and the controller has something to do for it: it has no job run yet, or
      the lister shows that its job run has finished. */
  predicate NeedsWakeup(run: RunInfo, c: Controller)
    requires c.sys.history != []
  {
    var st := Current(c.sys);
    && GateOf(run.spec).Accepted? && !IsDone(st)
    && (Recorded(st) ==> RecordedName(st) in c.cache && Finished(c.cache[RecordedName(st)]))
  }

  /** The key is queued, or an event that will queue it is on its way. */
  predicate Nudged(c: Controller)
    requires c.sys.history != []
  {
    || c.dirty || c.retry || c.runEvent || c.seen < Last(c)
    || (Recorded(Current(c.sys)) && RecordedName(Current(c.sys)) in c.jobEvents)
  }

  /** A reconcile under way that has read an outdated Run, or that will leave things as they are without
      an error, does not settle the matter; something else will. */
  predicate ActiveOk(run: RunInfo, c: Controller)
    requires c.sys.history != []
  {
    c.active.Some? ==>
      && c.active.value in c.sys.workers
      && var w := c.sys.workers[c.active.value];
         && w.base <= Last(c)
         && (w.base < Last(c) && GateOf(run.spec).Accepted? ==> c.dirty || c.retry || c.runEvent || c.seen < Last(c))
         && (w.base == Last(c) && w.check.Some? && NeedsWakeup(run, c) && LeavesAsIs(run, Current(c.sys), w) ==>
               Nudged(c))
  }

  predicate LeavesAsIs(run: RunInfo, st: RunStatus, w: Worker)
    requires w.check.Some?
  {
    Result(run, st, w).error.None? && Result(run, st, w).status == st
  }

  predicate Awake(run: RunInfo, c: Controller)
    requires c.sys.history != []
  {
    && c.seen <= Last(c)
    && ActiveOk(run, c)
    && (NeedsWakeup(run, c) && c.active.None? ==> Nudged(c))
  }

  /** A reconcile of the latest status that has something to do, and knows it, does it or fails. */
  lemma LookSettles(run: RunInfo, st: RunStatus, w: Worker)
    requires w.check.Some? && !IsDone(st) && GateOf(run.spec).Accepted?
    requires Recorded(st) ==>
      RecordedName(st) in w.check.value.cache && Finished(w.check.value.cache[RecordedName(st)])
    ensures !LeavesAsIs(run, st, w)
  {
    var begun := Begin(run, st, w.launch.now);
    assert IsDone(begun) == IsDone(st) && begun.extra == st.extra;
  }

  /** A commit by anybody leaves the Run lister behind. */
  lemma ElsewhereStaysAwake(run: RunInfo, c: Controller, move: Move)
    requires c.sys.history != [] && Awake(run, c) && CanMove(run, c, move) && move.Elsewhere?
    ensures Awake(run, Moved(run, c, move))
  {
    var c' := Moved(run, c, move);
    StepWrites(run, c.sys, move.step);
    if c.active.Some? {
      OthersKeepWorker(run, c.sys, move.step, c.active.value);
    }
  }

  lemma OthersKeepWorker(run: RunInfo, s: System, step: Step, id: nat)
    requires id in s.workers && Enabled(run, s, step) && Untouched(Some(id), step)
    ensures id in Apply(run, s, step).workers && Apply(run, s, step).workers[id] == s.workers[id]
  {
  }

  lemma TakeStaysAwake(run: RunInfo, c: Controller, move: Move)
    requires c.sys.history != [] && Awake(run, c) && CanMove(run, c, move) && move.Take?
    ensures Awake(run, Moved(run, c, move))
  {
  }

  lemma LookSees(run: RunInfo, c: Controller, move: Move)
    requires CanMove(run, c, move) && move.Look?
    ensures var c' := Moved(run, c, move); var id := c.active.value;
      && c' == c.(sys := c'.sys) && c'.sys.history == c.sys.history && c'.sys.jobs == c.sys.jobs
      && id in c'.sys.workers && c'.sys.workers[id].base == c.sys.workers[id].base
      && c'.sys.workers[id].check == Some(CheckView(c.cache, move.lookupFails, move.encodeFails))
  {
  }

  lemma LookStaysAwake(run: RunInfo, c: Controller, move: Move)
    requires c.sys.history != [] && Awake(run, c) && CanMove(run, c, move) && move.Look?
    ensures Awake(run, Moved(run, c, move))
  {
    LookSees(run, c, move);
    if c.sys.workers[c.active.value].base == Last(c) && NeedsWakeup(run, c) {
      LookSettles(run, Current(c.sys), Moved(run, c, move).sys.workers[c.active.value]);
    }
  }

  lemma WriteStaysAwake(run: RunInfo, c: Controller, move: Move)
    requires c.sys.history != [] && Awake(run, c) && CanMove(run, c, move)
    requires move.Write? || move.LoseWrite?
    ensures Awake(run, Moved(run, c, move))
  {
    StepWrites(run, c.sys, StepOf(c, move).value);
  }

  lemma TellJobStaysAwake(run: RunInfo, c: Controller, move: Move)
    requires c.sys.history != [] && Coherent(run, c.sys)
    requires Awake(run, c) && CanMove(run, c, move) && move.TellJob?
    ensures Awake(run, Moved(run, c, move))
  {
  }

  lemma TellRunStaysAwake(run: RunInfo, c: Controller, move: Move)
    requires c.sys.history != [] && Awake(run, c) && CanMove(run, c, move) && move.TellRun?
    ensures Awake(run, Moved(run, c, move))
  {
    AcceptedRunsPassTheFilter(run.spec);
  }

  lemma MoveStaysAwake(run: RunInfo, c: Controller, move: Move)
    requires c.sys.history != [] && Coherent(run, c.sys) && Awake(run, c) && CanMove(run, c, move)
    ensures Awake(run, Moved(run, c, move))
  {
    match move
    case Take(_, _) => TakeStaysAwake(run, c, move);
    case Look(_, _) => LookStaysAwake(run, c, move);
    case Write => WriteStaysAwake(run, c, move);
    case LoseWrite => WriteStaysAwake(run, c, move);
    case TellJob(_) => TellJobStaysAwake(run, c, move);
    case TellRun => TellRunStaysAwake(run, c, move);
    case Elsewhere(_) => ElsewhereStaysAwake(run, c, move);
    case _ =>
  }

  lemma {:induction false} AlwaysAwake(run: RunInfo, moves: seq<Move>)
    requires run.creation != ZERO_TIME
    requires Moves(run, moves).Some?
    ensures Inv(run, Moves(run, moves).value.sys) && Awake(run, Moves(run, moves).value)
  {
    if moves == [] {
      InvInitially(run);
    } else {
      var front, last := moves[..|moves| - 1], moves[|moves| - 1];
      AlwaysAwake(run, front);
      var c := Moves(run, front).value;
      MoveStaysAwake(run, c, last);
      if StepOf(c, last).Some? {
        StepKeepsInv(run, c.sys, StepOf(c, last).value);
      }
    }
  }

  // ---------- No lost wakeup ----------

  /** When the controller has something to do for the Run, the key is dirty or being worked on, or a
      retry, an event about the Run or an event about its job run is on its way, or the Run lister has
      yet to learn of a commit. */
  lemma NoWakeupIsLost(run: RunInfo, moves: seq<Move>, c: Controller)
    requires run.creation != ZERO_TIME && Moves(run, moves) == Some(c)
    requires NeedsWakeup(run, c)
    ensures c.active.Some? || c.dirty || c.retry || c.runEvent || c.seen < Last(c)
            || (Recorded(Current(c.sys)) && RecordedName(Current(c.sys)) in c.jobEvents)
  {
    AlwaysAwake(run, moves);
  }

  /** And whatever is on its way does queue the key when it arrives. */
  lemma NudgesQueueTheKey(run: RunInfo, moves: seq<Move>, c: Controller)
    requires run.creation != ZERO_TIME && Moves(run, moves) == Some(c)
    requires NeedsWakeup(run, c)
    ensures c.retry ==> CanMove(run, c, Retry) && Moved(run, c, Retry).dirty
    ensures c.runEvent ==> CanMove(run, c, TellRun) && Moved(run, c, TellRun).dirty
    ensures c.seen < Last(c) ==> CanMove(run, c, SeeRun(Last(c))) && Moved(run, c, SeeRun(Last(c))).runEvent
    ensures var name := RecordedName(Current(c.sys));
      name != "" && name in c.jobEvents ==> CanMove(run, c, TellJob(name)) && Moved(run, c, TellJob(name)).dirty
  {
    AlwaysAwake(run, moves);
    AcceptedRunsPassTheFilter(run.spec);
    if Recorded(Current(c.sys)) {
      OwnersAreRouted(run, c.sys.jobs[RecordedName(Current(c.sys))]);
    }
  }

  /** Nothing is safe before it is written: at any time the process can restart, and then an event about
      the Run is on its way; the write of a reconcile can get lost, and then is due again; and the lister
      can lose a job run, and then tells so. */
  lemma AnythingCanGetLost(run: RunInfo, moves: seq<Move>, c: Controller, version: nat, name: Name)
    requires run.creation != ZERO_TIME && Moves(run, moves) == Some(c) && version <= Last(c)
    ensures CanMove(run, c, Restart(version, map[]))
    ensures var c' := Moved(run, c, Restart(version, map[]));
      c'.sys.history == c.sys.history && c'.active.None? && c'.runEvent && c'.seen == version
    ensures c.active.Some? && c.sys.workers[c.active.value].check.Some? ==>
      && CanMove(run, c, LoseWrite)
      && var c' := Moved(run, c, LoseWrite);
         c'.sys.history == c.sys.history && c'.active.None? && c'.retry
    ensures name in c.cache ==>
      && CanMove(run, c, ForgetJob(name))
      && var c' := Moved(run, c, ForgetJob(name)); name !in c'.cache && name in c'.jobEvents && c'.sys == c.sys
  {
    AlwaysAwake(run, moves);
  }

  // ---------- No idle work ----------

  datatype Kind = Reconciling | Queueing | Retrying | Failing | TellingOfRun | RunChanging

  /** What the moves are counted by.  The key is queued by a retry, by an event about a Run that names a
      CodeEngineTask, and by an event about a job run of this Run; a write fails when it gets lost, when
      the reconcile ended with an error, or when it would change the status but comes too late. */
  predicate IsA(run: RunInfo, c: Controller, move: Move, kind: Kind)
    requires CanMove(run, c, move)
  {
    match kind
    case Reconciling => move.Take?
    case Queueing =>
      || move.Retry?
      || (move.TellRun? && FilterRunRef(run.spec))
      || (move.TellJob? && move.job in c.sys.jobs && OwnedBy(run, c.sys.jobs[move.job]))
    case Retrying => move.Retry?
    case Failing =>
      || move.LoseWrite?
      || (&& move.Write?
          && var w := c.sys.workers[c.active.value];
             var read := c.sys.history[w.base];
             Result(run, read, w).error.Some? || (Result(run, read, w).status != read && w.base < Last(c)))
    case TellingOfRun => move.TellRun?
    case RunChanging => move.SeeRun? || move.Restart?
  }

  function Times(run: RunInfo, moves: seq<Move>, kind: Kind): nat
    requires Moves(run, moves).Some?
  {
    if moves == [] then 0
    else
      var front := moves[..|moves| - 1];
      Times(run, front, kind) + if IsA(run, Moves(run, front).value, moves[|moves| - 1], kind) then 1 else 0
  }

  function One(pending: bool): nat {
    if pending then 1 else 0
  }

  lemma MoveHasCause(run: RunInfo, c: Controller, move: Move)
    requires c.sys.history != [] && CanMove(run, c, move)
    ensures var c' := Moved(run, c, move);
      && One(IsA(run, c, move, Reconciling)) + One(c'.dirty) <= One(c.dirty) + One(IsA(run, c, move, Queueing))
      && One(IsA(run, c, move, Retrying)) + One(c'.retry) <= One(c.retry) + One(IsA(run, c, move, Failing))
      && One(IsA(run, c, move, TellingOfRun)) + One(c'.runEvent) <=
           One(c.runEvent) + One(IsA(run, c, move, RunChanging))
  {
    if move.TellJob? && move.job in c.sys.jobs {
      OwnersAreRouted(run, c.sys.jobs[move.job]);
    }
  }

  /** Every reconcile, and a key still queued, has a cause of its own: a retry, or an event about this Run
      or about one of its job runs.  Every retry, made or due, follows a failed write of its own, and every
      event about the Run a change that the Run lister saw, the first one or a restart. */
  lemma {:induction false} ReconcilesHaveCauses(run: RunInfo, moves: seq<Move>, c: Controller)
    requires Moves(run, moves) == Some(c)
    ensures Times(run, moves, Reconciling) + One(c.dirty) <= Times(run, moves, Queueing)
    ensures Times(run, moves, Retrying) + One(c.retry) <= Times(run, moves, Failing)
    ensures Times(run, moves, TellingOfRun) + One(c.runEvent) <= 1 + Times(run, moves, RunChanging)
  {
    if moves != [] {
      var front, last := moves[..|moves| - 1], moves[|moves| - 1];
      ReconcilesHaveCauses(run, front, Moves(run, front).value);
      MoveHasCause(run, Moves(run, front).value, last);
    }
  }

  /** An event about a job run, still on its way, goes back to a change of the job run lister. */
  lemma {:induction false} JobEventsHaveCauses(run: RunInfo, moves: seq<Move>, c: Controller, name: string)
    returns (i: nat)
    requires Moves(run, moves) == Some(c) && name in c.jobEvents
    ensures i < |moves|
    ensures match moves[i]
      case SeeJob(job, _) => job == name
      case ForgetJob(job) => job == name
      case Restart(_, known) => name in known
      case _ => false
  {
    var front, last := moves[..|moves| - 1], moves[|moves| - 1];
    var before := Moves(run, front).value;
    if name in before.jobEvents && !last.Restart? {
      i := JobEventsHaveCauses(run, front, before, name);
    } else {
      i := |moves| - 1;
    }
  }

  // ---------- The controller's own moves ----------

  /** The controller alone: no other replica, nothing from Code Engine. */
  predicate ByItself(moves: seq<Move>, longer: seq<Move>) {
    moves <= longer && forall i :: |moves| <= i < |longer| ==> !longer[i].Elsewhere?
  }

  lemma ByItselfChains(a: seq<Move>, b: seq<Move>, c: seq<Move>)
    requires ByItself(a, b) && ByItself(b, c)
    ensures ByItself(a, c)
  {
  }

  lemma OneMove(run: RunInfo, moves: seq<Move>, c: Controller, move: Move)
    returns (longer: seq<Move>, c': Controller)
    requires Moves(run, moves) == Some(c) && CanMove(run, c, move)
    ensures Moves(run, longer) == Some(c') && c' == Moved(run, c, move)
    ensures longer == moves + [move] && (move.Elsewhere? || ByItself(moves, longer))
  {
    longer, c' := moves + [move], Moved(run, c, move);
    assert longer[..|longer| - 1] == moves;
  }

  predicate CacheLags(c: Controller) {
    Lagging(c.cache, c.sys.jobs)
  }

  lemma GrownJobsKeepLag(cache: map<string, Phase>, a: map<string, JobRun>, b: map<string, JobRun>)
    requires Lagging(cache, a) && JobsGrow(a, b)
    ensures Lagging(cache, b)
  {
  }

  lemma StepKeepsLag(run: RunInfo, c: Controller, move: Move)
    requires CacheLags(c) && CanMove(run, c, move) && StepOf(c, move).Some?
    ensures CacheLags(Moved(run, c, move))
  {
    var step := StepOf(c, move).value;
    StepGrowsJobs(run, c.sys, step);
    GrownJobsKeepLag(c.cache, c.sys.jobs, Apply(run, c.sys, step).jobs);
    if move.Restart? {
      GrownJobsKeepLag(move.known, c.sys.jobs, Apply(run, c.sys, step).jobs);
    }
  }

  lemma OtherMoveKeepsLag(run: RunInfo, c: Controller, move: Move)
    requires CacheLags(c) && CanMove(run, c, move) && StepOf(c, move).None?
    ensures CacheLags(Moved(run, c, move))
  {
  }

  lemma {:induction false} CacheAlwaysLags(run: RunInfo, moves: seq<Move>)
    requires Moves(run, moves).Some?
    ensures CacheLags(Moves(run, moves).value)
  {
    if moves != [] {
      var front, last := moves[..|moves| - 1], moves[|moves| - 1];
      CacheAlwaysLags(run, front);
      var c := Moves(run, front).value;
      if StepOf(c, last).Some? {
        StepKeepsLag(run, c, last);
      } else {
        OtherMoveKeepsLag(run, c, last);
      }
    }
  }

  /** What the environment must offer so that a reconcile has a chance: the task; and for a Run without
      a job run also the job definition, a memo that does not hold it back, and a create that is
      answered. */
  predicate Offers(run: RunInfo, s: System, view: LaunchView)
    requires s.history != []
  {
    if Recorded(Current(s)) then run.spec.embedded.None? ==> view.task.Some?
    else WantsJobRun(run, Current(s), view) && view.create.Created? && view.create.name !in s.jobs
  }

  lemma OffersCarryOver(run: RunInfo, s: System, s': System, view: LaunchView)
    requires s.history != [] && s'.history != [] && s'.jobs == s.jobs && Offers(run, s, view)
    requires WellFormed(run, Current(s)) && WellFormed(run, Current(s'))
    requires !IsDone(Current(s')) && Recorded(Current(s)) == Recorded(Current(s'))
    ensures Offers(run, s', view)
  {
  }

  lemma RecordedTaskResolves(run: RunInfo, s: System, view: LaunchView)
    requires Serial(run, s) && Recorded(Current(s))
    requires run.spec.embedded.None? ==> view.task.Some?
    ensures ChosenSpec(run, Current(s), view).Some?
  {
    assert s.log[..|s.log|] == s.log;
    RecordedRunsNameATask(run, s.log);
  }

  lemma OffersHelp(run: RunInfo, c: Controller, view: LaunchView)
    requires Serial(run, c.sys) && NeedsWakeup(run, c) && Offers(run, c.sys, view)
    ensures Made(run, Current(c.sys), Worker(Last(c), view, None)) !! c.sys.jobs.Keys
    ensures var st := Current(c.sys);
      Rank(Reconcile(run, st, Views(view, CheckView(c.cache, false, false))).status) < Rank(st)
  {
    var views := Views(view, CheckView(c.cache, false, false));
    if Recorded(Current(c.sys)) {
      RecordedTaskResolves(run, c.sys, view);
    }
    HelpfulReconcileLowersRank(run, Current(c.sys), views);
    CreatesExactlyWhenWanted(run, Current(c.sys), views);
  }

  /** Take, look and write, with nothing in between. */
  lemma Serve(run: RunInfo, moves: seq<Move>, c: Controller, id: nat, view: LaunchView)
    returns (longer: seq<Move>, done: Controller)
    requires Moves(run, moves) == Some(c) && c.seen == Last(c) && CacheLags(c)
    requires CanMove(run, c, Take(id, view))
    requires Reconcile(run, Current(c.sys), Views(view, CheckView(c.cache, false, false))).status != Current(c.sys)
    ensures ByItself(moves, longer) && Moves(run, longer) == Some(done)
    ensures Current(done.sys) == Reconcile(run, Current(c.sys), Views(view, CheckView(c.cache, false, false))).status
  {
    StepKeepsLag(run, c, Take(id, view));
    longer, done := OneMove(run, moves, c, Take(id, view));
    assert done.sys.history == c.sys.history && done.sys.workers[id] == Worker(c.seen, view, None);
    longer, done := OneMove(run, longer, done, Look(false, false));
    assert done.sys.history == c.sys.history;
    longer, done := OneMove(run, longer, done, Write);
  }

  /** A queued key that is served with an up-to-date Run and with what it needs starts the job run, or
      ends the Run. */
  lemma ServedKeyMakesProgress(run: RunInfo, moves: seq<Move>, c: Controller, id: nat, view: LaunchView)
    returns (longer: seq<Move>, done: Controller)
    requires run.creation != ZERO_TIME && Moves(run, moves) == Some(c) && Offers(run, c.sys, view)
    requires NeedsWakeup(run, c) && c.dirty && c.active.None? && c.seen == Last(c) && id !in c.sys.workers
    ensures ByItself(moves, longer) && Moves(run, longer) == Some(done)
    ensures Rank(Current(done.sys)) < Rank(Current(c.sys))
  {
    AlwaysAwake(run, moves);
    CacheAlwaysLags(run, moves);
    OffersHelp(run, c, view);
    longer, done := Serve(run, moves, c, id, view);
  }

  // ---------- From anywhere to the end ----------

  lemma StatusEvolves(run: RunInfo, moves: seq<Move>, c: Controller, i: nat)
    requires run.creation != ZERO_TIME && Moves(run, moves) == Some(c) && i < |c.sys.history|
    ensures Evolves(c.sys.history[i], Current(c.sys))
    ensures WellFormed(run, c.sys.history[i]) && WellFormed(run, Current(c.sys))
  {
    var steps := MovesFollowTheProtocol(run, moves);
    CurrentEvolves(run, steps, c.sys, i);
  }

  lemma ActiveCanLook(run: RunInfo, moves: seq<Move>, c: Controller) returns (longer: seq<Move>, c': Controller)
    requires run.creation != ZERO_TIME && Moves(run, moves) == Some(c) && c.active.Some?
    ensures ByItself(moves, longer) && Moves(run, longer) == Some(c') && CanMove(run, c', Write)
    ensures c'.sys.history == c.sys.history && c'.sys.jobs == c.sys.jobs && c'.cache == c.cache
  {
    AlwaysAwake(run, moves);
    CacheAlwaysLags(run, moves);
    longer, c' := moves, c;
    if c.sys.workers[c.active.value].check.None? {
      LookSees(run, c, Look(false, false));
      longer, c' := OneMove(run, moves, c, Look(false, false));
    }
  }

  lemma WriteEnds(run: RunInfo, c: Controller)
    requires CanMove(run, c, Write)
    ensures var c' := Moved(run, c, Write);
      c'.active.None? && c'.cache == c.cache && c'.sys.jobs == c.sys.jobs && c.sys.history <= c'.sys.history
  {
  }

  /** The same status for our purposes: what was needed still is. */
  lemma SameRankStillNeeds(run: RunInfo, c: Controller, c': Controller)
    requires c.sys.history != [] && c'.sys.history != [] && NeedsWakeup(run, c) && c'.cache == c.cache
    requires Evolves(Current(c.sys), Current(c'.sys)) && Rank(Current(c'.sys)) == Rank(Current(c.sys))
    ensures NeedsWakeup(run, c') && Recorded(Current(c'.sys)) == Recorded(Current(c.sys))
  {
  }

  /** The reconcile under way, if any, comes to its end. */
  lemma ActiveCanFinish(run: RunInfo, moves: seq<Move>, c: Controller) returns (longer: seq<Move>, c': Controller)
    requires run.creation != ZERO_TIME && Moves(run, moves) == Some(c)
    ensures ByItself(moves, longer) && Moves(run, longer) == Some(c') && c'.active.None?
    ensures c'.cache == c.cache && c'.sys.jobs == c.sys.jobs && c.sys.history <= c'.sys.history
  {
    longer, c' := moves, c;
    if c.active.Some? {
      longer, c' := ActiveCanLook(run, moves, c);
      WriteEnds(run, c');
      longer, c' := OneMove(run, longer, c', Write);
    }
  }

  lemma CommitGetsSeen(run: RunInfo, moves: seq<Move>, c: Controller) returns (longer: seq<Move>, c': Controller)
    requires run.creation != ZERO_TIME && Moves(run, moves) == Some(c) && NeedsWakeup(run, c) && c.seen < Last(c)
    ensures ByItself(moves, longer) && Moves(run, longer) == Some(c')
    ensures c'.dirty && c'.active == c.active && c'.sys == c.sys && c'.cache == c.cache
  {
    var seen, between := OneMove(run, moves, c, SeeRun(Last(c)));
    NudgesQueueTheKey(run, seen, between);
    longer, c' := OneMove(run, seen, between, TellRun);
    ByItselfChains(moves, seen, longer);
  }

  /** An idle controller gets its key queued. */
  lemma IdleGetsQueued(run: RunInfo, moves: seq<Move>, c: Controller) returns (longer: seq<Move>, c': Controller)
    requires run.creation != ZERO_TIME && Moves(run, moves) == Some(c) && NeedsWakeup(run, c) && c.active.None?
    ensures ByItself(moves, longer) && Moves(run, longer) == Some(c')
    ensures c'.dirty && c'.active.None? && c'.sys == c.sys && c'.cache == c.cache
  {
    NoWakeupIsLost(run, moves, c);
    NudgesQueueTheKey(run, moves, c);
    longer, c' := moves, c;
    if c.dirty {
    } else if c.retry {
      longer, c' := OneMove(run, moves, c, Retry);
    } else if c.runEvent {
      longer, c' := OneMove(run, moves, c, TellRun);
    } else if c.seen < Last(c) {
      longer, c' := CommitGetsSeen(run, moves, c);
    } else {
      longer, c' := OneMove(run, moves, c, TellJob(RecordedName(Current(c.sys))));
    }
  }

  lemma IdleGetsUpToDate(run: RunInfo, moves: seq<Move>, c: Controller) returns (longer: seq<Move>, c': Controller)
    requires run.creation != ZERO_TIME && Moves(run, moves) == Some(c) && NeedsWakeup(run, c) && c.active.None?
    ensures ByItself(moves, longer) && Moves(run, longer) == Some(c') && c'.seen == Last(c')
    ensures c'.dirty && c'.active.None? && c'.sys == c.sys && c'.cache == c.cache
  {
    var queued, between := IdleGetsQueued(run, moves, c);
    AlwaysAwake(run, queued);
    longer, c' := queued, between;
    if between.seen < Last(between) {
      longer, c' := OneMove(run, queued, between, SeeRun(Last(between)));
      ByItselfChains(moves, queued, longer);
    }
  }

  lemma {:induction false} FreshId(used: set<nat>) returns (id: nat)
    ensures forall u :: u in used ==> u < id
  {
    if used == {} {
      id := 0;
    } else {
      var u :| u in used;
      var rest := FreshId(used - {u});
      assert forall v :: v in used ==> v == u || v in used - {u};
      id := if u < rest then rest else u + 1;
    }
  }

  lemma FurtherOrAsBefore(run: RunInfo, moves: seq<Move>, c: Controller, c': Controller, view: LaunchView)
    requires run.creation != ZERO_TIME && Moves(run, moves) == Some(c') && c.sys.history != []
    requires c'.cache == c.cache && c'.sys.jobs == c.sys.jobs && c.sys.history <= c'.sys.history
    requires NeedsWakeup(run, c) && Offers(run, c.sys, view)
    ensures Rank(Current(c'.sys)) <= Rank(Current(c.sys))
    ensures Rank(Current(c'.sys)) == Rank(Current(c.sys)) ==> NeedsWakeup(run, c') && Offers(run, c'.sys, view)
  {
    assert c'.sys.history[Last(c)] == Current(c.sys);
    StatusEvolves(run, moves, c', Last(c));
    if Rank(Current(c'.sys)) == Rank(Current(c.sys)) {
      SameRankStillNeeds(run, c, c');
      OffersCarryOver(run, c.sys, c'.sys, view);
    }
  }

  /** The controller is idle, its key queued and its Run lister up to date; or it has got further. */
  lemma GetsReady(run: RunInfo, moves: seq<Move>, c: Controller, view: LaunchView)
    returns (longer: seq<Move>, c': Controller)
    requires run.creation != ZERO_TIME && Moves(run, moves) == Some(c)
    requires NeedsWakeup(run, c) && Offers(run, c.sys, view)
    ensures ByItself(moves, longer) && Moves(run, longer) == Some(c')
    ensures Rank(Current(c'.sys)) <= Rank(Current(c.sys))
    ensures Rank(Current(c'.sys)) == Rank(Current(c.sys)) ==>
      NeedsWakeup(run, c') && Offers(run, c'.sys, view) && c'.dirty && c'.active.None? && c'.seen == Last(c')
  {
    var idle, between := ActiveCanFinish(run, moves, c);
    FurtherOrAsBefore(run, idle, c, between, view);
    longer, c' := idle, between;
    if Rank(Current(between.sys)) == Rank(Current(c.sys)) {
      longer, c' := IdleGetsUpToDate(run, idle, between);
      ByItselfChains(moves, idle, longer);
    }
  }

  /** No dead end: from every state in which the controller has something to do for the Run, it can get
      one rank further by moves of its own, that is, start the job run or end the Run. */
  lemma ProgressIsAlwaysInReach(run: RunInfo, moves: seq<Move>, c: Controller, view: LaunchView)
    returns (longer: seq<Move>, done: Controller)
    requires run.creation != ZERO_TIME && Moves(run, moves) == Some(c)
    requires NeedsWakeup(run, c) && Offers(run, c.sys, view)
    ensures ByItself(moves, longer) && Moves(run, longer) == Some(done)
    ensures Rank(Current(done.sys)) < Rank(Current(c.sys))
  {
    var ready, idle := GetsReady(run, moves, c, view);
    longer, done := ready, idle;
    if Rank(Current(idle.sys)) == Rank(Current(c.sys)) {
      var id := FreshId(idle.sys.workers.Keys);
      longer, done := ServedKeyMakesProgress(run, ready, idle, id, view);
      ByItselfChains(moves, ready, longer);
    }
  }

  /** As before, but job runs may go on meanwhile. */
  predicate WithCodeEngine(moves: seq<Move>, longer: seq<Move>) {
    moves <= longer && forall i :: |moves| <= i < |longer| && longer[i].Elsewhere? ==> longer[i].step.Progress?
  }

  lemma WithCodeEngineChains(a: seq<Move>, b: seq<Move>, c: seq<Move>)
    requires WithCodeEngine(a, b) && (WithCodeEngine(b, c) || ByItself(b, c))
    ensures WithCodeEngine(a, c)
  {
  }

  lemma CodeEngineFinishes(run: RunInfo, moves: seq<Move>, c: Controller, name: Name)
    returns (longer: seq<Move>, c': Controller)
    requires Moves(run, moves) == Some(c) && name in c.sys.jobs
    ensures WithCodeEngine(moves, longer) && Moves(run, longer) == Some(c')
    ensures c'.sys.history == c.sys.history && name in c'.sys.jobs && c'.sys.jobs[name].phase.complete
  {
    longer, c' := OneMove(run, moves, c, Elsewhere(Progress(name, c.sys.jobs[name].phase.(complete := true))));
  }

  lemma FinishedJobRunGetsSeen(run: RunInfo, moves: seq<Move>, c: Controller, name: Name)
    returns (longer: seq<Move>, c': Controller)
    requires Moves(run, moves) == Some(c) && name in c.sys.jobs && Finished(c.sys.jobs[name].phase)
    ensures ByItself(moves, longer) && Moves(run, longer) == Some(c')
    ensures c'.sys == c.sys && name in c'.cache && Finished(c'.cache[name])
  {
    longer, c' := OneMove(run, moves, c, SeeJob(name, c.sys.jobs[name].phase));
  }

  /** Once Code Engine has finished the recorded job run and the lister has noticed, there is something
      to do. */
  lemma FinishedJobRunWakes(run: RunInfo, moves: seq<Move>, c: Controller) returns (longer: seq<Move>, c': Controller)
    requires run.creation != ZERO_TIME && Moves(run, moves) == Some(c)
    requires GateOf(run.spec).Accepted? && Recorded(Current(c.sys)) && !IsDone(Current(c.sys))
    ensures WithCodeEngine(moves, longer) && Moves(run, longer) == Some(c')
    ensures NeedsWakeup(run, c') && c'.sys.history == c.sys.history
  {
    AlwaysAwake(run, moves);
    var name: Name := RecordedName(Current(c.sys));
    var finished, between := CodeEngineFinishes(run, moves, c, name);
    longer, c' := FinishedJobRunGetsSeen(run, finished, between, name);
    WithCodeEngineChains(moves, finished, longer);
  }

  lemma RecordedCanEnd(run: RunInfo, moves: seq<Move>, c: Controller, view: LaunchView)
    returns (longer: seq<Move>, done: Controller)
    requires run.creation != ZERO_TIME && Moves(run, moves) == Some(c)
    requires GateOf(run.spec).Accepted? && Recorded(Current(c.sys)) && !IsDone(Current(c.sys))
    requires run.spec.embedded.None? ==> view.task.Some?
    ensures WithCodeEngine(moves, longer) && Moves(run, longer) == Some(done)
    ensures IsDone(Current(done.sys))
  {
    var finished, between := FinishedJobRunWakes(run, moves, c);
    longer, done := ProgressIsAlwaysInReach(run, finished, between, view);
    WithCodeEngineChains(moves, finished, longer);
  }

  /** So every accepted Run that is not done, in whatever state the controller is, can still come to its
      end: no other replica need do anything, and Code Engine no more than finish the job run. */
  lemma TheEndIsAlwaysInReach(run: RunInfo, moves: seq<Move>, c: Controller, view: LaunchView)
    returns (longer: seq<Move>, done: Controller)
    requires run.creation != ZERO_TIME && Moves(run, moves) == Some(c)
    requires GateOf(run.spec).Accepted? && !IsDone(Current(c.sys)) && Offers(run, c.sys, view)
    ensures WithCodeEngine(moves, longer) && Moves(run, longer) == Some(done)
    ensures IsDone(Current(done.sys))
  {
    longer, done := moves, c;
    if !Recorded(Current(c.sys)) {
      longer, done := ProgressIsAlwaysInReach(run, moves, c, view);
    }
    if !IsDone(Current(done.sys)) {
      var started := longer;
      longer, done := RecordedCanEnd(run, longer, done, view);
      WithCodeEngineChains(moves, started, longer);
    }
  }

  lemma {:induction false} FreshName(used: set<string>) returns (name: Name)
    ensures forall u :: u in used ==> |u| < |name|
  {
    if used == {} {
      name := "a";
    } else {
      var u :| u in used;
      var rest := FreshName(used - {u});
      assert forall v :: v in used ==> v == u || v in used - {u};
      name := if |u| < |rest| then rest else u + "a";
    }
  }

  /** There is always an environment that offers what a reconcile needs. */
  lemma OffersExist(run: RunInfo, s: System) returns (view: LaunchView)
    requires s.history != [] && Startable(run) && WellFormed(run, Current(s)) && !IsDone(Current(s))
    ensures Offers(run, s, view)
  {
    var name := FreshName(s.jobs.Keys);
    assert name !in s.jobs.Keys;
    var spec := if run.spec.embedded.Some? then run.spec.embedded.value.raw.task else TaskSpec("job");
    view := LaunchView(run.creation, Some(spec), false, {spec.jobName}, Created(name));
  }

  /** No Run that can have a job run is ever stuck: from every state of the controller in which it is not
      done there are moves that end it. */
  lemma StartableRunsCanEnd(run: RunInfo, moves: seq<Move>, c: Controller)
    returns (longer: seq<Move>, done: Controller)
    requires Startable(run) && Moves(run, moves) == Some(c)
    ensures WithCodeEngine(moves, longer) && Moves(run, longer) == Some(done)
    ensures IsDone(Current(done.sys))
  {
    longer, done := moves, c;
    if !IsDone(Current(c.sys)) {
      StatusEvolves(run, moves, c, |c.sys.history| - 1);
      var view := OffersExist(run, c.sys);
      longer, done := TheEndIsAlwaysInReach(run, moves, c, view);
    }
  }
}
