/** CodeEngineTasks as they lie in memory, and the functions that copy them.

    A struct is an object; a struct inside a struct, which has an address of its own, is a constant
    part of it.  What a struct refers to by pointer, map or slice is a field that may be null, and two
    structs may share it.  The slots of a slice of structs are the objects of a sequence. */
module TaskObjects {
  import opened Types

  datatype TypeMeta = TypeMeta(kind: string, apiVersion: string)
  datatype ListMetaValue = ListMetaValue(selfLink: string, resourceVersion: string, continue_: string,
                                         remainingItemCount: Option<int>)
  datatype StatusCondition = StatusCondition(kind: string, truth: Truth, reason: string)

  datatype StatusValue = StatusValue(observedGeneration: int, conditions: Option<seq<StatusCondition>>,
                                     annotations: Option<map<string, string>>,
                                     spec: Option<TaskSpec>, jobRunName: string)
  datatype TaskValue = TaskValue(typeMeta: TypeMeta, namespace: string, name: string,
                                 labels: Option<map<string, string>>, annotations: Option<map<string, string>>,
                                 spec: TaskSpec, status: StatusValue)

  const NO_STATUS := StatusValue(0, None, None, None, "")

  class StringMap {
    var entries: map<string, string>

    constructor (entries: map<string, string>)
      ensures this.entries == entries
    {
      this.entries := entries;
    }
  }

  function MapValue(m: StringMap?): Option<map<string, string>>
    reads m
  {
    if m == null then None else Some(m.entries)
  }

  method NewMap(value: Option<map<string, string>>) returns (m: StringMap?)
    ensures MapValue(m) == value && fresh({m} - {null})
  {
    m := null;
    if value.Some? {
      m := new StringMap(value.value);
    }
  }

  method CopyMap(from: StringMap?) returns (to: StringMap?)
    ensures MapValue(to) == MapValue(from) && fresh({to} - {null})
  {
    to := NewMap(MapValue(from));
  }

  /** A number that may be missing, and so is referred to by pointer. */
  class Int64 {
    var value: int

    constructor (value: int)
      ensures this.value == value
    {
      this.value := value;
    }
  }

  function IntValue(n: Int64?): Option<int>
    reads n
  {
    if n == null then None else Some(n.value)
  }

  method CopyInt(from: Int64?) returns (to: Int64?)
    ensures IntValue(to) == IntValue(from) && fresh({to} - {null})
  {
    to := null;
    if from != null {
      to := new Int64(from.value);
    }
  }

  class CodeEngineTaskSpec {
    var jobName: string

    constructor (jobName: string)
      ensures this.jobName == jobName
    {
      this.jobName := jobName;
    }

    function Value(): TaskSpec
      reads this
    {
      TaskSpec(jobName)
    }

    method DeepCopyInto(out: CodeEngineTaskSpec)
      modifies out
      ensures out.Value() == old(Value())
    {
      out.jobName := jobName;
    }
  }

  class CodeEngineTaskStatus {
    var observedGeneration: int
    var conditions: array?<StatusCondition>
    var annotations: StringMap?
    var codeEngineTaskSpec: CodeEngineTaskSpec?
    var jobRunName: string

    constructor ()
      ensures Value() == NO_STATUS && Referenced() == {}
    {
      observedGeneration := 0;
      conditions, annotations, codeEngineTaskSpec, jobRunName := null, null, null, "";
    }

    /** The objects that the status refers to and might share. */
    ghost function Referenced(): set<object?>
      reads this
    {
      {conditions, annotations, codeEngineTaskSpec} - {null}
    }

    ghost function Value(): StatusValue
      reads this, conditions, annotations, codeEngineTaskSpec
    {
      StatusValue(observedGeneration,
                  if conditions == null then None else Some(conditions[..]),
                  MapValue(annotations),
                  if codeEngineTaskSpec == null then None else Some(codeEngineTaskSpec.Value()),
                  jobRunName)
    }

    /** First everything is shared, then what was shared is replaced. */
    method DeepCopyInto(out: CodeEngineTaskStatus)
      requires out !in Referenced() && out != this
      modifies out
      ensures out.Value() == old(Value())
      ensures fresh(out.Referenced())
    {
      out.observedGeneration, out.conditions, out.annotations := observedGeneration, conditions, annotations;
      out.codeEngineTaskSpec, out.jobRunName := codeEngineTaskSpec, jobRunName;

      if conditions != null {
        var from: array<StatusCondition> := conditions;
        out.conditions := new StatusCondition[from.Length](i requires 0 <= i < from.Length reads from => from[i]);
        assert out.conditions[..] == from[..];
      }
      out.annotations := CopyMap(annotations);
      if codeEngineTaskSpec != null {
        out.codeEngineTaskSpec := new CodeEngineTaskSpec("");
        out.codeEngineTaskSpec.jobName := codeEngineTaskSpec.jobName;
      }
    }
  }

  class CodeEngineTask {
    var typeMeta: TypeMeta
    var namespace: string
    var name: string
    var labels: StringMap?
    var annotations: StringMap?
    const spec: CodeEngineTaskSpec
    const status: CodeEngineTaskStatus

    /** A task with all fields zero. */
    constructor ()
      ensures fresh(Struct()) && Referenced() == {}
      ensures Value() == TaskValue(TypeMeta("", ""), "", "", None, None, TaskSpec(""), NO_STATUS)
    {
      typeMeta, namespace, name := TypeMeta("", ""), "", "";
      labels, annotations := null, null;
      spec := new CodeEngineTaskSpec("");
      status := new CodeEngineTaskStatus();
    }

    /** The memory of the struct itself. */
    ghost function Struct(): set<object?> {
      {this, spec, status}
    }

    ghost function Referenced(): set<object?>
      reads this, status
    {
      ({labels, annotations} - {null}) + status.Referenced()
    }

    ghost function Footprint(): set<object?>
      reads this, status
    {
      Struct() + Referenced()
    }

    ghost function Value(): TaskValue
      reads this, labels, annotations, spec, status
      reads status.conditions, status.annotations, status.codeEngineTaskSpec
    {
      TaskValue(typeMeta, namespace, name, MapValue(labels), MapValue(annotations), spec.Value(), status.Value())
    }

    method DeepCopyInto(out: CodeEngineTask)
      requires out.Struct() !! Footprint()
      modifies out, out.spec, out.status
      ensures out.Value() == old(Value())
      ensures fresh(out.Referenced())
    {
      out.typeMeta, out.namespace, out.name := typeMeta, namespace, name;
      out.labels := CopyMap(labels);
      out.annotations := CopyMap(annotations);
      assert status.Value() == old(status.Value());
      spec.DeepCopyInto(out.spec);
      assert status.Value() == old(status.Value());
      status.DeepCopyInto(out.status);
      assert out.status.Value() == old(status.Value());
      assert MapValue(out.labels) == old(MapValue(labels)) && MapValue(out.annotations) == old(MapValue(annotations));
    }

    method DeepCopy() returns (out: CodeEngineTask)
      ensures out.Value() == Value()
      ensures fresh(out.Footprint())
    {
      out := new CodeEngineTask();
      DeepCopyInto(out);
    }
  }

  // ---------- What a value says ----------

  /** Two statuses have the same value exactly when they agree in every field, and in what the fields
      refer to; nil is different from empty. */
  lemma StatusValuesAreEqualExactly(a: CodeEngineTaskStatus, b: CodeEngineTaskStatus)
    ensures a.Value() == b.Value() <==>
      && a.observedGeneration == b.observedGeneration && a.jobRunName == b.jobRunName
      && (a.conditions == null <==> b.conditions == null)
      && (a.conditions != null && b.conditions != null ==> a.conditions[..] == b.conditions[..])
      && (a.annotations == null <==> b.annotations == null)
      && (a.annotations != null && b.annotations != null ==> a.annotations.entries == b.annotations.entries)
      && (a.codeEngineTaskSpec == null <==> b.codeEngineTaskSpec == null)
      && (a.codeEngineTaskSpec != null && b.codeEngineTaskSpec != null ==>
            a.codeEngineTaskSpec.jobName == b.codeEngineTaskSpec.jobName)
  {
  }

  /** The same for tasks. */
  lemma TaskValuesAreEqualExactly(a: CodeEngineTask, b: CodeEngineTask)
    ensures a.Value() == b.Value() <==>
      && a.typeMeta == b.typeMeta && a.namespace == b.namespace && a.name == b.name
      && (a.labels == null <==> b.labels == null)
      && (a.labels != null && b.labels != null ==> a.labels.entries == b.labels.entries)
      && (a.annotations == null <==> b.annotations == null)
      && (a.annotations != null && b.annotations != null ==> a.annotations.entries == b.annotations.entries)
      && a.spec.jobName == b.spec.jobName
      && a.status.Value() == b.status.Value()
  {
  }

  /** And for the metadata of lists. */
  lemma ListMetaValuesAreEqualExactly(a: ListMeta, b: ListMeta)
    ensures a.Value() == b.Value() <==>
      && a.selfLink == b.selfLink && a.resourceVersion == b.resourceVersion && a.continue_ == b.continue_
      && (a.remainingItemCount == null <==> b.remainingItemCount == null)
      && (a.remainingItemCount != null && b.remainingItemCount != null ==>
            a.remainingItemCount.value == b.remainingItemCount.value)
  {
  }

  // ---------- Lists ----------

  /** The task uses this memory and has this value. */
  ghost predicate Holds(task: CodeEngineTask, memory: set<object?>, value: TaskValue)
    reads task, task.labels, task.annotations, task.spec, task.status
    reads task.status.conditions, task.status.annotations, task.status.codeEngineTaskSpec
  {
    task.Footprint() == memory && task.Value() == value
  }

  method CopySlots(slots: seq<CodeEngineTask>) returns (copies: seq<CodeEngineTask>)
    ensures |copies| == |slots|
    ensures forall k :: 0 <= k < |slots| ==>
      copies[k].Value() == slots[k].Value() && fresh(copies[k].Footprint())
    ensures forall j, k :: 0 <= j < k < |slots| ==> copies[j].Footprint() !! copies[k].Footprint()
  {
    copies := [];
    ghost var memory: seq<set<object?>> := [];
    for i := 0 to |slots|
      invariant |copies| == |memory| == i
      invariant forall k :: 0 <= k < i ==>
        fresh(memory[k]) && Holds(copies[k], memory[k], old(slots[k].Value()))
      invariant forall j, k :: 0 <= j < k < i ==> memory[j] !! memory[k]
    {
      var copy := slots[i].DeepCopy();
      copies, memory := copies + [copy], memory + [copy.Footprint()];
    }
  }

  class ListMeta {
    var selfLink: string
    var resourceVersion: string
    var continue_: string
    var remainingItemCount: Int64?

    constructor ()
      ensures Value() == ListMetaValue("", "", "", None)
    {
      selfLink, resourceVersion, continue_, remainingItemCount := "", "", "", null;
    }

    ghost function Value(): ListMetaValue
      reads this, remainingItemCount
    {
      ListMetaValue(selfLink, resourceVersion, continue_, IntValue(remainingItemCount))
    }

    method DeepCopyInto(out: ListMeta)
      requires out != this
      modifies out
      ensures out.Value() == old(Value()) && fresh({out.remainingItemCount} - {null})
    {
      out.selfLink, out.resourceVersion, out.continue_ := selfLink, resourceVersion, continue_;
      out.remainingItemCount := CopyInt(remainingItemCount);
    }
  }

  class CodeEngineTaskList {
    var typeMeta: TypeMeta
    const listMeta: ListMeta
    var items: Option<seq<CodeEngineTask>>

    constructor ()
      ensures items == None && fresh(listMeta)
    {
      typeMeta, items := TypeMeta("", ""), None;
      listMeta := new ListMeta();
    }

    method CopyItems(out: CodeEngineTaskList)
      requires out != this && items.Some?
      modifies out`items
      ensures out.items.Some? && |out.items.value| == |items.value|
      ensures forall i :: 0 <= i < |items.value| ==>
        && out.items.value[i].Value() == old(items.value[i].Value())
        && fresh(out.items.value[i].Footprint())
      ensures forall i, j :: 0 <= i < j < |items.value| ==>
        out.items.value[i].Footprint() !! out.items.value[j].Footprint()
    {
      var copies := CopySlots(items.value);
      out.items := Some(copies);
    }

    /** The slice stays nil or gets memory of its own: every slot is new, and so is all that it refers
        to, and no two slots share any of it. */
    method DeepCopyInto(out: CodeEngineTaskList)
      requires out != this && out.listMeta != listMeta
      modifies out, out.listMeta
      ensures out.typeMeta == typeMeta && out.listMeta.Value() == old(listMeta.Value())
      ensures fresh({out.listMeta.remainingItemCount} - {null})
      ensures out.items.Some? <==> items.Some?
      ensures items.Some? ==> |out.items.value| == |items.value|
      ensures items.Some? ==> forall i :: 0 <= i < |items.value| ==>
        && out.items.value[i].Value() == old(items.value[i].Value())
        && fresh(out.items.value[i].Footprint())
      ensures items.Some? ==> forall i, j :: 0 <= i < j < |items.value| ==>
        out.items.value[i].Footprint() !! out.items.value[j].Footprint()
    {
      out.typeMeta, out.items := typeMeta, items;
      listMeta.DeepCopyInto(out.listMeta);
      if items.Some? {
        CopyItems(out);
      }
    }
  }

  method DeepCopyTask(from: CodeEngineTask?) returns (out: CodeEngineTask?)
    ensures from == null <==> out == null
    ensures from != null ==> out.Value() == from.Value() && fresh(out.Footprint())
  {
    if from == null {
      return null;
    }
    out := from.DeepCopy();
  }

  method DeepCopyList(from: CodeEngineTaskList?) returns (out: CodeEngineTaskList?)
    ensures from == null <==> out == null
    ensures from != null ==>
      && fresh(out) && fresh(out.listMeta) && out.typeMeta == from.typeMeta
      && out.listMeta.Value() == from.listMeta.Value() && fresh({out.listMeta.remainingItemCount} - {null})
      && (out.items.Some? <==> from.items.Some?)
      && (from.items.Some? ==>
            && |out.items.value| == |from.items.value|
            && forall i :: 0 <= i < |from.items.value| ==>
                 && out.items.value[i].Value() == from.items.value[i].Value()
                 && fresh(out.items.value[i].Footprint()))
    ensures from != null && from.items.Some? ==> forall i, j :: 0 <= i < j < |from.items.value| ==>
      out.items.value[i].Footprint() !! out.items.value[j].Footprint()
  {
    if from == null {
      return null;
    }
    out := new CodeEngineTaskList();
    from.DeepCopyInto(out);
  }

  /** Whatever is done to memory that a task does not use, the task keeps its value; so after a deep
      copy neither the original nor the copy notices what is done to the other. */
  twostate lemma WritesElsewhereAreUnseen(task: CodeEngineTask)
    requires forall o: object :: o in old(task.Footprint()) ==> unchanged(o)
    ensures task.Value() == old(task.Value()) && task.Footprint() == old(task.Footprint())
  {
    var was := old(task.Footprint());
    var status := task.status;
    assert task in was && task.spec in was && status in was;
    assert status.conditions != null ==> status.conditions in was;
    assert status.annotations != null ==> status.annotations in was;
    assert status.codeEngineTaskSpec != null ==> status.codeEngineTaskSpec in was;
    assert task.labels != null ==> task.labels in was;
    assert task.annotations != null ==> task.annotations in was;
  }
}
