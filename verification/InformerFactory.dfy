/** The shared informer factory: one informer for each type, each started once. */
module InformerFactory {
  import opened Types

  /** A type of objects, as reflection gives it. */
  type ObjectType = string
  type Duration = nat

  /** The client of a cluster, by a name of its own. */
  type Client = string

  datatype ListOptions = ListOptions(labelSelector: string, fieldSelector: string)

  /** What is done to the options of every list call. */
  type Tweak = ListOptions -> ListOptions

  datatype FactoryOption =
    | WithCustomResync(config: map<ObjectType, Duration>)
    | WithTweakListOptions(tweak: Tweak)
    | WithNamespace(namespace: string)

  /** An informer, with the number of times it was launched. */
  class Informer {
    const client: Client
    const resync: Duration
    var launches: nat

    constructor (client: Client, resync: Duration)
      ensures this.client == client && this.resync == resync && launches == 0
    {
      this.client, this.resync, launches := client, resync, 0;
    }

    method Run()
      modifies this
      ensures launches == old(launches) + 1
    {
      launches := launches + 1;
    }
  }

  function FoldNamespace(options: seq<FactoryOption>): string {
    if options == [] then ""
    else
      var last := options[|options| - 1];
      if last.WithNamespace? then last.namespace else FoldNamespace(options[..|options| - 1])
  }

  function FoldTweak(options: seq<FactoryOption>): Option<Tweak> {
    if options == [] then None
    else
      var last := options[|options| - 1];
      if last.WithTweakListOptions? then Some(last.tweak) else FoldTweak(options[..|options| - 1])
  }

  function FoldResync(options: seq<FactoryOption>): map<ObjectType, Duration> {
    if options == [] then map[]
    else
      var front := FoldResync(options[..|options| - 1]);
      var last := options[|options| - 1];
      if last.WithCustomResync? then front + last.config else front
  }

  /** The last namespace and the last tweak count; of the custom periods, for each type the last that
      names it. */
  lemma {:induction false} LastOptionCounts(options: seq<FactoryOption>, i: nat, t: ObjectType)
    requires i < |options|
    ensures options[i].WithNamespace? && (forall j | i < j < |options| :: !options[j].WithNamespace?) ==>
      FoldNamespace(options) == options[i].namespace
    ensures options[i].WithTweakListOptions? && (forall j | i < j < |options| :: !options[j].WithTweakListOptions?) ==>
      FoldTweak(options) == Some(options[i].tweak)
    ensures
      && options[i].WithCustomResync? && t in options[i].config
      && (forall j | i < j < |options| :: !(options[j].WithCustomResync? && t in options[j].config)) ==>
        t in FoldResync(options) && FoldResync(options)[t] == options[i].config[t]
  {
    if i < |options| - 1 {
      LastOptionCounts(options[..|options| - 1], i, t);
    }
  }

  /** Without any such option the factory serves all namespaces, with no tweak and no period of its own. */
  lemma {:induction false} NoOptionLeavesDefaults(options: seq<FactoryOption>, t: ObjectType)
    ensures (forall i | 0 <= i < |options| :: !options[i].WithNamespace?) ==> FoldNamespace(options) == ""
    ensures (forall i | 0 <= i < |options| :: !options[i].WithTweakListOptions?) ==> FoldTweak(options) == None
    ensures (forall i | 0 <= i < |options| :: !(options[i].WithCustomResync? && t in options[i].config)) ==>
      t !in FoldResync(options)
  {
    if options != [] {
      NoOptionLeavesDefaults(options[..|options| - 1], t);
    }
  }

  class SharedInformerFactory {
    const client: Client
    var namespace: string
    var tweakListOptions: Option<Tweak>
    var defaultResync: Duration
    var customResync: map<ObjectType, Duration>
    var informers: map<ObjectType, Informer>
    var startedInformers: map<ObjectType, bool>

    /** Started types are registered; an informer serves one type, and has been launched once if that
        type is started and never otherwise. */
    ghost predicate Valid()
      reads this, informers.Values
    {
      && (forall t :: t in startedInformers ==> t in informers && startedInformers[t])
      && (forall t, u :: t in informers && u in informers && t != u ==> informers[t] != informers[u])
      && (forall t :: t in informers ==> informers[t].launches == if t in startedInformers then 1 else 0)
    }

    constructor (client: Client, defaultResync: Duration, options: seq<FactoryOption>)
      ensures Valid() && informers == map[] && startedInformers == map[]
      ensures this.client == client && this.defaultResync == defaultResync
      ensures namespace == FoldNamespace(options) && customResync == FoldResync(options)
      ensures tweakListOptions == FoldTweak(options)
    {
      namespace, tweakListOptions, customResync := "", None, map[];
      this.client, this.defaultResync := client, defaultResync;
      informers, startedInformers := map[], map[];
      new;
      for i := 0 to |options|
        invariant namespace == FoldNamespace(options[..i]) && customResync == FoldResync(options[..i])
        invariant tweakListOptions == FoldTweak(options[..i])
        invariant informers == map[] && startedInformers == map[]
        invariant this.client == client && this.defaultResync == defaultResync
      {
        assert options[..i + 1][..i] == options[..i];
        match options[i] {
          case WithNamespace(ns) => namespace := ns;
          case WithTweakListOptions(tweak) => tweakListOptions := Some(tweak);
          case WithCustomResync(config) => customResync := customResync + config;
        }
      }
      assert options[..|options|] == options;
    }

    /** The informer of the type, made when it is first asked for. */
    method InformerFor(objectType: ObjectType) returns (informer: Informer)
      requires Valid()
      modifies this`informers
      ensures Valid()
      ensures objectType in old(informers) ==>
        informers == old(informers) && informer == old(informers)[objectType]
      ensures objectType !in old(informers) ==>
        fresh(informer) && informers == old(informers)[objectType := informer]
        && informer.client == client && informer.launches == 0
        && informer.resync == (if objectType in customResync then customResync[objectType] else defaultResync)
    {
      if objectType in informers {
        return informers[objectType];
      }
      var resyncPeriod := defaultResync;
      if objectType in customResync {
        resyncPeriod := customResync[objectType];
      }
      informer := new Informer(client, resyncPeriod);
      informers := informers[objectType := informer];
      assert forall t :: t in old(informers) ==> informers[t] == old(informers[t]);
    }

    /** Launches what is registered and not started yet, in any order. */
    method Start()
      requires Valid()
      modifies this`startedInformers, informers.Values
      ensures Valid()
      ensures startedInformers.Keys == informers.Keys
      ensures forall t :: t in informers ==>
        informers[t].launches == old(informers[t].launches) + if t in old(startedInformers) then 0 else 1
    {
      var todo := informers.Keys;
      while todo != {}
        invariant todo <= informers.Keys
        invariant Valid()
        invariant startedInformers.Keys == old(startedInformers.Keys) + (informers.Keys - todo)
        decreases todo
      {
        var t :| t in todo;
        if t !in startedInformers {
          informers[t].Run();
          startedInformers := startedInformers[t := true];
        }
        todo := todo - {t};
      }
    }

    /** The informers of the started types, taken under the lock. */
    method StartedSnapshot() returns (started: map<ObjectType, Informer>)
      requires Valid()
      ensures started.Keys == startedInformers.Keys
      ensures forall t :: t in started ==> started[t] == informers[t]
    {
      started := map[];
      var todo := informers.Keys;
      while todo != {}
        invariant todo <= informers.Keys
        invariant forall t :: t in started <==> t in informers.Keys - todo && t in startedInformers
        invariant forall t :: t in started ==> started[t] == informers[t]
        decreases todo
      {
        var t :| t in todo;
        if t in startedInformers && startedInformers[t] {
          started := started[t := informers[t]];
        }
        todo := todo - {t};
      }
    }

    method Perform(op: Operation)
      requires Valid()
      modifies this`informers, this`startedInformers, informers.Values
      ensures Valid()
      ensures FactoryState(informers.Keys, startedInformers.Keys) ==
        AfterOperation(FactoryState(old(informers.Keys), old(startedInformers.Keys)), op)
      ensures forall t :: t in old(informers) ==> t in informers && informers[t] == old(informers)[t]
      ensures forall t :: t in informers && t !in old(informers) ==>
        && fresh(informers[t]) && informers[t].client == client
        && informers[t].resync == if t in customResync then customResync[t] else defaultResync
    {
      match op {
        case Register(t) => var _ := InformerFor(t);
        case StartAll => Start();
      }
    }

    /** Whatever is asked of the factory, and in whatever order: every type keeps the informer it got
        first, and none is launched twice. */
    method PerformAll(ops: seq<Operation>)
      requires Valid()
      modifies this`informers, this`startedInformers, informers.Values
      ensures Valid()
      ensures FactoryState(informers.Keys, startedInformers.Keys) ==
        AfterOperations(FactoryState(old(informers.Keys), old(startedInformers.Keys)), ops)
      ensures forall t :: t in informers ==> informers[t].launches == if t in startedInformers then 1 else 0
      ensures forall t :: t in old(informers) ==> t in informers && informers[t] == old(informers)[t]
      ensures forall t :: t in informers && t !in old(informers) ==>
        && fresh(informers[t]) && informers[t].client == client
        && informers[t].resync == if t in customResync then customResync[t] else defaultResync
    {
      for i := 0 to |ops|
        invariant Valid()
        invariant FactoryState(informers.Keys, startedInformers.Keys) ==
          AfterOperations(FactoryState(old(informers.Keys), old(startedInformers.Keys)), ops[..i])
        invariant forall t :: t in old(informers) ==> t in informers && informers[t] == old(informers)[t]
        invariant forall t :: t in informers && t !in old(informers) ==>
          && fresh(informers[t]) && informers[t].client == client
          && informers[t].resync == if t in customResync then customResync[t] else defaultResync
      {
        assert ops[..i + 1][..i] == ops[..i];
        Perform(ops[i]);
      }
      assert ops[..|ops|] == ops;
    }

    /** The types reported are those started when the snapshot was taken, whatever other goroutines do
        to the factory while this one waits: `others` is what they do before each answer. */
    method WaitForCacheSync(others: seq<seq<Operation>>, synced: Informer -> bool)
      returns (res: map<ObjectType, bool>)
      requires Valid()
      modifies this`informers, this`startedInformers, informers.Values
      ensures Valid()
      ensures res.Keys == old(startedInformers.Keys)
      ensures forall t :: t in res ==> res[t] == synced(old(informers)[t])
    {
      var started := StartedSnapshot();
      res := map[];
      var todo := started.Keys;
      var i := 0;
      while todo != {}
        invariant Valid() && todo <= started.Keys && 0 <= i <= |others|
        invariant forall t :: t in informers && t !in old(informers) ==> fresh(informers[t])
        invariant forall t :: t in old(informers) ==> t in informers && informers[t] == old(informers)[t]
        invariant res.Keys == started.Keys - todo
        invariant forall t :: t in res ==> res[t] == synced(started[t])
        decreases todo
      {
        if i < |others| {
          PerformAll(others[i]);
          i := i + 1;
        }
        var t :| t in todo;
        res := res[t := synced(started[t])];
        todo := todo - {t};
      }
    }
  }

  // ---------- Any sequence of operations ----------

  datatype Operation = Register(objectType: ObjectType) | StartAll

  datatype FactoryState = FactoryState(registered: set<ObjectType>, started: set<ObjectType>)

  function AfterOperation(s: FactoryState, op: Operation): FactoryState {
    match op
    case Register(t) => s.(registered := s.registered + {t})
    case StartAll => s.(started := s.registered)
  }

  function AfterOperations(s: FactoryState, ops: seq<Operation>): FactoryState {
    if ops == [] then s
    else AfterOperation(AfterOperations(s, ops[..|ops| - 1]), ops[|ops| - 1])
  }

  /** Some start came after the type was asked for. */
  predicate StartedAfter(ops: seq<Operation>, t: ObjectType) {
    exists i, j :: 0 <= i < j < |ops| && ops[i] == Register(t) && ops[j] == StartAll
  }

  lemma OneMoreOperation(front: seq<Operation>, last: Operation, t: ObjectType)
    ensures StartedAfter(front + [last], t) <==>
      StartedAfter(front, t) || (last.StartAll? && Register(t) in front)
  {
    var ops := front + [last];
    if StartedAfter(ops, t) {
      var i, j :| 0 <= i < j < |ops| && ops[i] == Register(t) && ops[j] == StartAll;
      assert front[i] == Register(t);
      assert j < |front| ==> front[j] == StartAll;
    }
    if StartedAfter(front, t) {
      var i, j :| 0 <= i < j < |front| && front[i] == Register(t) && front[j] == StartAll;
      assert ops[i] == Register(t) && ops[j] == StartAll;
    }
    if last.StartAll? && Register(t) in front {
      var i :| 0 <= i < |front| && front[i] == Register(t);
      assert ops[i] == Register(t) && ops[|front|] == StartAll;
    }
  }

  /** A type is registered exactly when it was asked for, and started exactly when some start came
      after that. */
  lemma {:induction false} StartedExactlyWhenStartedLater(ops: seq<Operation>, t: ObjectType)
    ensures var s := AfterOperations(FactoryState({}, {}), ops);
      && (t in s.registered <==> Register(t) in ops)
      && (t in s.started <==> StartedAfter(ops, t))
  {
    if ops != [] {
      var front, last := ops[..|ops| - 1], ops[|ops| - 1];
      assert ops == front + [last];
      StartedExactlyWhenStartedLater(front, t);
      StartedAreRegistered(front);
      OneMoreOperation(front, last, t);
    }
  }

  lemma {:induction false} StartedAreRegistered(ops: seq<Operation>)
    ensures var s := AfterOperations(FactoryState({}, {}), ops); s.started <= s.registered
  {
    if ops != [] {
      StartedAreRegistered(ops[..|ops| - 1]);
    }
  }
}
