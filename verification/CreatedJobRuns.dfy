/** The memo of created job runs in one controller process: what it would guarantee if successful
    creates were entered, and that without that it guarantees nothing.

    The code looks the memo up before it creates, but never enters anything.  The parameter `repaired`
    adds the missing call, right after a create that has answered.  A status that would stop a reconcile
    before it looks the memo up plays no part: a reconcile here may always get as far as that. */
module CreatedJobRuns {
  import opened Types
  import opened Routing
  import Lister

  /** Five minutes, in nanoseconds. */
  const TTL: Time := 5 * 60 * 1_000_000_000

  /** A worker that has found the memo silent, and one that has created. */
  datatype Stage = Cleared | Made

  /** A job run that exists, and whether the create call has answered: an answer can get lost. */
  datatype Create = Create(key: Key, time: Time, answered: bool)

  /** `memo` holds expiry times; `working` has at most one worker for each key. */
  datatype Process = Process(now: Time, memo: map<string, Time>, working: map<Key, Stage>, creates: seq<Create>)

  datatype Action =
    | Wait(duration: Time)
    | LookUp(key: Key)
    | CreateJobRun(key: Key)
    | LoseAnswer(key: Key)
    | Finish(key: Key)
    | GiveUp(key: Key)
    | CleanUp(entry: string)

  const BOOTED := Process(0, map[], map[], [])

  function CacheKey(key: Key): string {
    Lister.LookupKey(key.namespace, key.name)
  }

  /** An entry counts until its time has passed. */
  predicate Hit(p: Process, key: Key) {
    CacheKey(key) in p.memo && p.now <= p.memo[CacheKey(key)]
  }

  predicate CanDo(p: Process, action: Action) {
    match action
    case Wait(_) => true
    case LookUp(key) => key !in p.working && Lister.SlashFree(key.namespace)
    case CreateJobRun(key) => key in p.working && p.working[key].Cleared?
    case LoseAnswer(key) => key in p.working && p.working[key].Cleared?
    case Finish(key) => key in p.working && p.working[key].Made?
    case GiveUp(key) => key in p.working && p.working[key].Cleared?
    case CleanUp(entry) => entry in p.memo && p.memo[entry] < p.now
  }

  function Do(repaired: bool, p: Process, action: Action): Process
    requires CanDo(p, action)
  {
    match action
    case Wait(duration) => p.(now := p.now + duration)
    case LookUp(key) => if Hit(p, key) then p else p.(working := p.working[key := Cleared])
    case CreateJobRun(key) =>
      p.(working := p.working[key := Made], creates := p.creates + [Create(key, p.now, true)])
    case LoseAnswer(key) =>
      p.(working := p.working - {key}, creates := p.creates + [Create(key, p.now, false)])
    case Finish(key) =>
      p.(working := p.working - {key}, memo := if repaired then p.memo[CacheKey(key) := p.now + TTL] else p.memo)
    case GiveUp(key) => p.(working := p.working - {key})
    case CleanUp(entry) => p.(memo := p.memo - {entry})
  }

  function After(repaired: bool, actions: seq<Action>): Option<Process> {
    if actions == [] then Some(BOOTED)
    else
      var before := After(repaired, actions[..|actions| - 1]);
      var last := actions[|actions| - 1];
      if before.Some? && CanDo(before.value, last) then Some(Do(repaired, before.value, last)) else None
  }

  // ---------- With the call ----------

  predicate Expired(p: Process, c: Create) {
    c.time + TTL < p.now
  }

  /** An earlier create is guarded against: by the worker that made it, by the memo, or by time.  Of a
      create whose answer got lost nobody knows. */
  predicate Guarded(p: Process, c: Create) {
    || !c.answered
    || (c.key in p.working && p.working[c.key].Made?)
    || (CacheKey(c.key) in p.memo && c.time + TTL <= p.memo[CacheKey(c.key)])
    || Expired(p, c)
  }

  predicate Sound(p: Process) {
    && (forall i :: 0 <= i < |p.creates| ==> p.creates[i].time <= p.now && Guarded(p, p.creates[i]))
    && (forall i :: 0 <= i < |p.creates| && p.creates[i].key in p.working && p.working[p.creates[i].key].Cleared? ==>
          !p.creates[i].answered || Expired(p, p.creates[i]))
    && (forall i, j :: 0 <= i < j < |p.creates| && p.creates[i].key == p.creates[j].key && p.creates[i].answered ==>
          p.creates[i].time + TTL < p.creates[j].time)
  }

  /** The memo knows only keys of Runs that a job run was created for. */
  predicate Grounded(p: Process) {
    && (forall k :: k in p.working ==> Lister.SlashFree(k.namespace))
    && (forall i :: 0 <= i < |p.creates| ==> Lister.SlashFree(p.creates[i].key.namespace))
    && (forall k :: k in p.working && p.working[k].Made? ==> exists i :: 0 <= i < |p.creates| && p.creates[i].key == k)
    && (forall e :: e in p.memo ==> exists i :: 0 <= i < |p.creates| && CacheKey(p.creates[i].key) == e)
  }

  lemma ActionStaysSound(p: Process, action: Action)
    requires Sound(p) && CanDo(p, action)
    ensures Sound(Do(true, p, action))
  {
    var q := Do(true, p, action);
    forall i | 0 <= i < |q.creates| ensures q.creates[i].time <= q.now && Guarded(q, q.creates[i]) {
      if i < |p.creates| {
        assert Guarded(p, p.creates[i]);
      }
    }
  }

  lemma ActionStaysGrounded(repaired: bool, p: Process, action: Action)
    requires Grounded(p) && CanDo(p, action)
    ensures Grounded(Do(repaired, p, action))
  {
    var q := Do(repaired, p, action);
    assert forall i :: 0 <= i < |p.creates| ==> q.creates[i] == p.creates[i];
    if action.CreateJobRun? || action.LoseAnswer? {
      assert q.creates[|p.creates|].key == action.key;
    }
  }

  lemma {:induction false} AlwaysSound(actions: seq<Action>)
    requires After(true, actions).Some?
    ensures Sound(After(true, actions).value)
  {
    if actions != [] {
      AlwaysSound(actions[..|actions| - 1]);
      ActionStaysSound(After(true, actions[..|actions| - 1]).value, actions[|actions| - 1]);
    }
  }

  lemma {:induction false} AlwaysGrounded(repaired: bool, actions: seq<Action>)
    requires After(repaired, actions).Some?
    ensures Grounded(After(repaired, actions).value)
  {
    if actions != [] {
      AlwaysGrounded(repaired, actions[..|actions| - 1]);
      ActionStaysGrounded(repaired, After(repaired, actions[..|actions| - 1]).value, actions[|actions| - 1]);
    }
  }

  /** With the call, a create for a Run comes more than the lifetime of an entry after every earlier one
      for it that has answered, however outdated the statuses are that the reconciles have read. */
  lemma CreatesAreApart(actions: seq<Action>, p: Process, i: nat, j: nat)
    requires After(true, actions) == Some(p)
    requires i < j < |p.creates| && p.creates[i].key == p.creates[j].key && p.creates[i].answered
    ensures p.creates[j].time > p.creates[i].time + 300_000_000_000
  {
    AlwaysSound(actions);
  }

  /** No longer than that: after any longer time the next create can follow, although the first has
      answered. */
  lemma CreatesCanFollowLater(key: Key, after: Time) returns (actions: seq<Action>, p: Process)
    requires Lister.SlashFree(key.namespace) && after > 300_000_000_000
    ensures After(true, actions) == Some(p)
    ensures p.creates == [Create(key, 0, true), Create(key, after, true)]
  {
    actions, p := OneMore(true, [], BOOTED, LookUp(key));
    actions, p := OneMore(true, actions, p, CreateJobRun(key));
    actions, p := OneMore(true, actions, p, Finish(key));
    actions, p := OneMore(true, actions, p, Wait(after));
    actions, p := OneMore(true, actions, p, LookUp(key));
    actions, p := OneMore(true, actions, p, CreateJobRun(key));
  }

  /** That it has answered is needed: after a lost answer the next create can follow at once, with the
      call as well. */
  lemma LostAnswersAreNotEntered(key: Key) returns (actions: seq<Action>, p: Process)
    requires Lister.SlashFree(key.namespace)
    ensures After(true, actions) == Some(p)
    ensures p.creates == [Create(key, 0, false), Create(key, 0, true)]
  {
    actions, p := OneMore(true, [], BOOTED, LookUp(key));
    actions, p := OneMore(true, actions, p, LoseAnswer(key));
    actions, p := OneMore(true, actions, p, LookUp(key));
    actions, p := OneMore(true, actions, p, CreateJobRun(key));
  }

  lemma OneMore(repaired: bool, actions: seq<Action>, p: Process, action: Action)
    returns (longer: seq<Action>, q: Process)
    requires After(repaired, actions) == Some(p) && CanDo(p, action)
    ensures After(repaired, longer) == Some(q) && q == Do(repaired, p, action)
  {
    longer, q := actions + [action], Do(repaired, p, action);
    assert longer[..|longer| - 1] == actions;
  }

  /** A Run is only held back by a job run of its own. */
  lemma HitsAreOnesOwn(repaired: bool, actions: seq<Action>, p: Process, key: Key) returns (i: nat)
    requires After(repaired, actions) == Some(p)
    requires Lister.SlashFree(key.namespace) && Hit(p, key)
    ensures i < |p.creates| && p.creates[i].key == key
  {
    AlwaysGrounded(repaired, actions);
    i :| 0 <= i < |p.creates| && CacheKey(p.creates[i].key) == CacheKey(key);
    Lister.KeyIsInjective(p.creates[i].key.namespace, p.creates[i].key.name, key.namespace, key.name);
  }

  // ---------- Without it ----------

  /** The memo of the code stays empty, so it never holds anything back. */
  lemma {:induction false} MemoStaysEmpty(actions: seq<Action>, key: Key)
    requires After(false, actions).Some?
    ensures After(false, actions).value.memo == map[] && !Hit(After(false, actions).value, key)
  {
    if actions != [] {
      MemoStaysEmpty(actions[..|actions| - 1], key);
    }
  }
}
