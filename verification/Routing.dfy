/** From an event about a job run back to the Run that made it. */
module Routing {
  import opened Types
  import opened ReconcileSpec

  datatype Key = Key(namespace: string, name: string)

  /** What a handler may be given: a job run, or anything else, such as a deletion tombstone. */
  datatype Object = JobRunObject(job: JobRun) | OtherObject

  datatype Event = Added(obj: Object) | Updated(older: Object, newer: Object) | Deleted(obj: Object)

  predicate FilterJobRunRef(obj: Object) {
    match obj
    case OtherObject => false
    case JobRunObject(job) => OWNER_LABEL in job.labels && OWNER_NAMESPACE_LABEL in job.labels
  }

  function Label(job: JobRun, key: string): string {
    if key in job.labels then job.labels[key] else ""
  }

  function OwnerKey(job: JobRun): Key {
    Key(Label(job, OWNER_NAMESPACE_LABEL), Label(job, OWNER_LABEL))
  }

  function RunKey(run: RunInfo): Key {
    Key(run.namespace, run.name)
  }

  /** The object that a filtering handler passes on: of an update the new one, or the old one when
      only that passes the filter. */
  function PassedOn(e: Event): Option<Object> {
    match e
    case Added(obj) => if FilterJobRunRef(obj) then Some(obj) else None
    case Deleted(obj) => if FilterJobRunRef(obj) then Some(obj) else None
    case Updated(older, newer) =>
      if FilterJobRunRef(newer) then Some(newer) else if FilterJobRunRef(older) then Some(older) else None
  }

  function EventKeys(e: Event): seq<Key> {
    match PassedOn(e)
    case None => []
    case Some(obj) => if obj.JobRunObject? then [OwnerKey(obj.job)] else []
  }

  function EnqueuedBy(events: seq<Event>): seq<Key> {
    if events == [] then [] else EnqueuedBy(events[..|events| - 1]) + EventKeys(events[|events| - 1])
  }

  /** The controller's queue, as a log of the keys that were added. */
  class Impl {
    var added: seq<Key>

    constructor ()
      ensures added == []
    {
      added := [];
    }

    method EnqueueKey(key: Key)
      modifies this
      ensures added == old(added) + [key]
    {
      added := added + [key];
    }
  }

  /** The type assertion of the handler demands a job run. */
  method JobRunEnqueue(impl: Impl, obj: Object)
    requires obj.JobRunObject?
    modifies impl
    ensures |impl.added| == |old(impl.added)| + 1 && old(impl.added) <= impl.added
    ensures var labels, key := obj.job.labels, impl.added[|old(impl.added)|];
      && key.name == (if OWNER_LABEL in labels then labels[OWNER_LABEL] else "")
      && key.namespace == (if OWNER_NAMESPACE_LABEL in labels then labels[OWNER_NAMESPACE_LABEL] else "")
    ensures impl.added == old(impl.added) + [OwnerKey(obj.job)]
  {
    var runName := if OWNER_LABEL in obj.job.labels then obj.job.labels[OWNER_LABEL] else "";
    var runNamespace :=
      if OWNER_NAMESPACE_LABEL in obj.job.labels then obj.job.labels[OWNER_NAMESPACE_LABEL] else "";
    impl.EnqueueKey(Key(runNamespace, runName));
  }

  method OnJobRunEvent(impl: Impl, e: Event)
    modifies impl
    ensures impl.added == old(impl.added) + EventKeys(e)
  {
    match e {
      case Added(obj) =>
        if FilterJobRunRef(obj) { JobRunEnqueue(impl, obj); }
      case Deleted(obj) =>
        if FilterJobRunRef(obj) { JobRunEnqueue(impl, obj); }
      case Updated(older, newer) =>
        if FilterJobRunRef(newer) {
          JobRunEnqueue(impl, newer);
        } else if FilterJobRunRef(older) {
          JobRunEnqueue(impl, older);
        }
    }
  }

  // ---------- Every job run finds its Run, and only its Run ----------

  lemma OwnersAreRouted(run: RunInfo, job: JobRun)
    ensures OwnedBy(run, job) <==> FilterJobRunRef(JobRunObject(job)) && OwnerKey(job) == RunKey(run)
  {
  }

  predicate IsOf(run: RunInfo, obj: Object) {
    && obj.JobRunObject?
    && OWNER_LABEL in obj.job.labels && obj.job.labels[OWNER_LABEL] == run.name
    && OWNER_NAMESPACE_LABEL in obj.job.labels && obj.job.labels[OWNER_NAMESPACE_LABEL] == run.namespace
  }

  /** The event is about a job run of this Run.  A job run that was handed to another Run is about
      the other one only; one that lost its labels is still about the old one. */
  predicate Concerns(run: RunInfo, e: Event) {
    match e
    case Added(obj) => IsOf(run, obj)
    case Deleted(obj) => IsOf(run, obj)
    case Updated(older, newer) =>
      || IsOf(run, newer)
      || (&& IsOf(run, older)
          && (newer.JobRunObject? ==>
                OWNER_LABEL !in newer.job.labels || OWNER_NAMESPACE_LABEL !in newer.job.labels))
  }

  /** Over any events, a Run is enqueued exactly when one of them concerns it, and there is at most
      one key for each event. */
  lemma {:induction false} EnqueuedExactlyWhenConcerned(run: RunInfo, events: seq<Event>)
    ensures Key(run.namespace, run.name) in EnqueuedBy(events) <==>
      exists i :: 0 <= i < |events| && Concerns(run, events[i])
    ensures |EnqueuedBy(events)| <= |events|
  {
    if events != [] {
      var front, last := events[..|events| - 1], events[|events| - 1];
      EnqueuedExactlyWhenConcerned(run, front);
      ConcernedExactlyWhenKeyed(run, last);
      assert events[|events| - 1] == last;
      assert forall i :: 0 <= i < |front| ==> front[i] == events[i];
    }
  }

  lemma ConcernedExactlyWhenKeyed(run: RunInfo, e: Event)
    ensures RunKey(run) in EventKeys(e) <==> Concerns(run, e)
  {
  }

  // ---------- Events about Runs ----------

  /** The filter that Tekton provides for events about Runs. */
  predicate FilterRunRef(spec: RunSpec) {
    if spec.ref.Some? then Ours(spec.ref.value.apiVersion, spec.ref.value.kind)
    else spec.embedded.Some? && Ours(spec.embedded.value.apiVersion, spec.embedded.value.kind)
  }

  /** Nothing the gate accepts is filtered out.  The other way it is the gate that is stricter,
      exactly on a Run whose reference is ours and whose embedded spec is not. */
  lemma AcceptedRunsPassTheFilter(spec: RunSpec)
    ensures GateOf(spec).Accepted? ==> FilterRunRef(spec)
    ensures FilterRunRef(spec) && !GateOf(spec).Accepted? <==>
      && spec.ref.Some? && spec.ref.value.apiVersion == API_VERSION && spec.ref.value.kind == CUSTOM_TASK_KIND
      && spec.embedded.Some?
      && (spec.embedded.value.apiVersion != API_VERSION || spec.embedded.value.kind != CUSTOM_TASK_KIND)
    ensures FilterRunRef(spec) ==> !GateOf(spec).Panics?
  {
  }

  /** Events about job runs have no such filter: a job run with the two labels of a Run, as those are
      that a reconcile makes, enqueues exactly the key of that Run, whatever the Run's spec is. */
  lemma LabelledJobRunsAlwaysEnqueue(run: RunInfo, job: JobRun)
    requires job.labels == OwnerLabels(run)
    ensures EventKeys(Added(JobRunObject(job))) == [Key(run.namespace, run.name)]
    ensures EventKeys(Deleted(JobRunObject(job))) == [Key(run.namespace, run.name)]
    ensures forall older :: EventKeys(Updated(older, JobRunObject(job))) == [Key(run.namespace, run.name)]
  {
  }
}
