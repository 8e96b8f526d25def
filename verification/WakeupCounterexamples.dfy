/** One controller process is enough for more job runs than one. */
module WakeupCounterexamples {
  import opened Types
  import opened ReconcileSpec
  import opened ReconcileProperties
  import opened Protocol
  import opened ProtocolInvariant
  import opened ProtocolCounterexamples
  import opened Routing
  import opened Wakeup

  /** What a reconcile of an untouched status by this process does, up to the end of its first half. */
  lemma TakenCreates(run: RunInfo, moves: seq<Move>, c: Controller, id: nat, name: Name)
    returns (longer: seq<Move>, c': Controller)
    requires Moves(run, moves) == Some(c) && Startable(run)
    requires c.dirty && c.active.None? && c.seen <= Last(c) && c.sys.history[c.seen] == EMPTY_STATUS
    requires id !in c.sys.workers && name !in c.sys.jobs
    ensures ByItself(moves, longer) && Moves(run, longer) == Some(c')
    ensures c'.sys.jobs == c.sys.jobs[name := JobRunOf(run)] && c'.sys.history == c.sys.history
    ensures c' == c.(sys := c'.sys, dirty := false, active := Some(id))
    ensures c'.sys.workers == c.sys.workers[id := Worker(c.seen, Willing(run, name), None)]
  {
    WillingLaunches(run, EMPTY_STATUS, name);
    longer, c' := OneMove(run, moves, c, Take(id, Willing(run, name)));
  }

  lemma TakenLooks(run: RunInfo, moves: seq<Move>, c: Controller, name: Name)
    returns (longer: seq<Move>, c': Controller)
    requires Moves(run, moves) == Some(c) && Startable(run) && c.sys.history == [EMPTY_STATUS] && c.cache == map[]
    requires c.active == Some(0) && c.sys.workers == map[0 := Worker(0, Willing(run, name), None)]
    ensures ByItself(moves, longer) && Moves(run, longer) == Some(c') && c' == c.(sys := c'.sys)
    ensures c'.sys.history == [EMPTY_STATUS] && c'.sys.jobs == c.sys.jobs
    ensures c'.sys.workers == map[0 := Worker(0, Willing(run, name), Some(QUIET))]
  {
    longer, c' := OneMove(run, moves, c, Look(false, false));
  }

  /** Its end, if nobody else has written. */
  lemma TakenRecords(run: RunInfo, moves: seq<Move>, c: Controller, name: Name)
    returns (longer: seq<Move>, c': Controller)
    requires Moves(run, moves) == Some(c) && Startable(run) && c.sys.history == [EMPTY_STATUS] && c.cache == map[]
    requires c.active == Some(0) && c.sys.workers == map[0 := Worker(0, Willing(run, name), None)]
    ensures ByItself(moves, longer) && Moves(run, longer) == Some(c')
    ensures c'.sys.history == [EMPTY_STATUS, Holding(run, name)] && c'.sys.jobs == c.sys.jobs
    ensures c'.sys.workers == map[] && c' == c.(sys := c'.sys, active := None)
  {
    var looked, between := TakenLooks(run, moves, c, name);
    WillingResults(run, EMPTY_STATUS, 0, name, QUIET);
    WillingLaunches(run, EMPTY_STATUS, name);
    longer, c' := OneMove(run, looked, between, Write);
    ByItselfChains(moves, looked, longer);
  }

  lemma FirstTake(run: RunInfo) returns (moves: seq<Move>, c: Controller)
    requires Startable(run)
    ensures ByItself([], moves) && Moves(run, moves) == Some(c)
    ensures c.sys.history == [EMPTY_STATUS] && c.sys.jobs == map["a" := JobRunOf(run)]
    ensures c.sys.workers == map[0 := Worker(0, Willing(run, "a"), None)]
    ensures c == FRESH.(sys := c.sys, runEvent := false, active := Some(0))
  {
    AcceptedRunsPassTheFilter(run.spec);
    var told, between := OneMove(run, [], FRESH, TellRun);
    moves, c := TakenCreates(run, told, between, 0, "a");
    ByItselfChains([], told, moves);
  }

  lemma FirstTakeRecords(run: RunInfo) returns (moves: seq<Move>, c: Controller)
    requires Startable(run)
    ensures ByItself([], moves) && Moves(run, moves) == Some(c)
    ensures c.sys.history == [EMPTY_STATUS, Holding(run, "a")] && c.sys.jobs == map["a" := JobRunOf(run)]
    ensures c.sys.workers == map[] && c == FRESH.(sys := c.sys, runEvent := false)
  {
    var m0, c0 := FirstTake(run);
    moves, c := TakenRecords(run, m0, c0, "a");
    ByItselfChains([], m0, moves);
  }

  /** The event about a job run just made comes back, and queues the key. */
  lemma OwnJobRunQueues(run: RunInfo, moves: seq<Move>, c: Controller, name: Name)
    returns (longer: seq<Move>, c': Controller)
    requires Moves(run, moves) == Some(c) && name in c.sys.jobs && OwnedBy(run, c.sys.jobs[name])
    ensures ByItself(moves, longer) && Moves(run, longer) == Some(c')
    ensures c'.dirty && c'.sys == c.sys && c'.seen == c.seen && c'.active == c.active
  {
    OwnersAreRouted(run, c.sys.jobs[name]);
    var seen, between := OneMove(run, moves, c, SeeJob(name, Phase(false, false)));
    longer, c' := OneMove(run, seen, between, TellJob(name));
    ByItselfChains(moves, seen, longer);
  }

  /** One process creates two job runs, without any failure, restart or other replica: the event about its
      own first job run queues the key before the Run lister has learnt of its own first write.  This is
      what the memo of created job runs was meant to prevent. */
  lemma OwnJobRunCreatesAgain(run: RunInfo) returns (moves: seq<Move>, c: Controller)
    requires Startable(run)
    ensures ByItself([], moves) && Moves(run, moves) == Some(c)
    ensures c.sys.jobs == map["a" := JobRunOf(run), "b" := JobRunOf(run)]
    ensures RecordedName(Current(c.sys)) == "a"
  {
    var m1, c1 := FirstTakeRecords(run);
    var m2, c2 := OwnJobRunQueues(run, m1, c1, "a");
    moves, c := TakenCreates(run, m2, c2, 1, "b");
    ByItselfChains([], m1, m2);
    ByItselfChains([], m2, moves);
  }

  lemma RestartStartsAfresh(run: RunInfo) returns (moves: seq<Move>, c: Controller)
    requires Startable(run)
    ensures ByItself([], moves) && Moves(run, moves) == Some(c)
    ensures c.sys.history == [EMPTY_STATUS] && c.sys.jobs == map["a" := JobRunOf(run)] && c.sys.workers == map[]
    ensures c.dirty && c.active.None? && c.seen == 0
  {
    var m0, c0 := FirstTake(run);
    AcceptedRunsPassTheFilter(run.spec);
    var m1, c1 := OneMove(run, m0, c0, Restart(0, map[]));
    assert c1.sys.workers == map[];
    moves, c := OneMove(run, m1, c1, TellRun);
    ByItselfChains([], m0, m1);
    ByItselfChains([], m1, moves);
  }

  /** A process that dies between the create and the write does so as well, when it comes back. */
  lemma RestartCreatesAgain(run: RunInfo) returns (moves: seq<Move>, c: Controller)
    requires Startable(run)
    ensures ByItself([], moves) && Moves(run, moves) == Some(c)
    ensures c.sys.jobs == map["a" := JobRunOf(run), "b" := JobRunOf(run)]
  {
    var m1, c1 := RestartStartsAfresh(run);
    moves, c := TakenCreates(run, m1, c1, 1, "b");
    ByItselfChains([], m1, moves);
  }
}
