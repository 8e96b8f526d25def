/** The lister of CodeEngineTasks over the indexer of its informer: lookup by key, listing through the
    index by namespace, and that the two agree. */
module Lister {
  import opened TaskObjects

  type Selector = map<string, string> -> bool

  const EVERYTHING: Selector := labels => true
  const ALL_NAMESPACES := ""

  /** The key under which an object is stored. */
  function MetaKey(namespace: string, name: string): string {
    if namespace == "" then name else namespace + "/" + name
  }

  function LookupKey(namespace: string, name: string): string {
    namespace + "/" + name
  }

  predicate SlashFree(s: string) {
    '/' !in s
  }

  lemma FirstSlash(namespace: string, name: string)
    requires SlashFree(namespace)
    ensures var key := LookupKey(namespace, name);
      key[|namespace|] == '/' && forall i :: 0 <= i < |namespace| ==> key[i] != '/'
  {
  }

  /** A key determines namespace and name, for the namespaces that exist; so does the key of the memo
      of created job runs, which has the same form. */
  lemma KeyIsInjective(ns1: string, name1: string, ns2: string, name2: string)
    requires SlashFree(ns1) && SlashFree(ns2)
    requires LookupKey(ns1, name1) == LookupKey(ns2, name2)
    ensures ns1 == ns2 && name1 == name2
  {
    var k1, k2 := LookupKey(ns1, name1), LookupKey(ns2, name2);
    FirstSlash(ns1, name1);
    FirstSlash(ns2, name2);
    assert |ns1| == |ns2|;
    assert ns1 == k1[..|ns1|] && ns2 == k2[..|ns2|];
    assert name1 == k1[|ns1| + 1..] && name2 == k2[|ns2| + 1..];
  }

  /** Without the restriction it does not. */
  lemma SlashesCollide()
    ensures LookupKey("a/b", "c") == LookupKey("a", "b/c")
  {
  }

  function LabelsOf(task: CodeEngineTask): map<string, string>
    reads task, task.labels
  {
    if task.labels == null then map[] else task.labels.entries
  }

  /** The store of the informer, with its index by namespace. */
  class Indexer {
    var items: map<string, CodeEngineTask>
    var byNamespace: map<string, set<string>>

    /** The index has exactly the keys of the store, each under the namespace of its object. */
    ghost predicate Valid()
      reads this, items.Values
    {
      && (forall k :: k in items ==> k == MetaKey(items[k].namespace, items[k].name))
      && (forall ns :: ns in byNamespace ==>
            forall k :: k in byNamespace[ns] ==> k in items && items[k].namespace == ns)
      && (forall k :: k in items ==> items[k].namespace in byNamespace && k in byNamespace[items[k].namespace])
    }

    constructor ()
      ensures Valid() && items == map[]
    {
      items, byNamespace := map[], map[];
    }

    method Unindex(key: string)
      requires Valid() && key in items
      modifies this
      ensures Valid() && items == old(items) - {key}
    {
      var ns := items[key].namespace;
      var keys := byNamespace[ns] - {key};
      byNamespace := if keys == {} then byNamespace - {ns} else byNamespace[ns := keys];
      items := items - {key};
    }

    method Index(key: string, task: CodeEngineTask)
      requires Valid() && key !in items && key == MetaKey(task.namespace, task.name)
      modifies this
      ensures Valid() && items == old(items)[key := task]
    {
      var keys := if task.namespace in byNamespace then byNamespace[task.namespace] else {};
      byNamespace := byNamespace[task.namespace := keys + {key}];
      items := items[key := task];
      assert forall k :: k in old(items) ==> items[k] == old(items[k]);
    }

    method Update(task: CodeEngineTask)
      requires Valid()
      modifies this
      ensures Valid() && items == old(items)[MetaKey(task.namespace, task.name) := task]
    {
      var key := MetaKey(task.namespace, task.name);
      if key in items {
        Unindex(key);
      }
      Index(key, task);
    }

    method Delete(task: CodeEngineTask)
      requires Valid()
      modifies this
      ensures Valid() && items == old(items) - {MetaKey(task.namespace, task.name)}
    {
      var key := MetaKey(task.namespace, task.name);
      if key in items {
        Unindex(key);
      }
    }
  }

  datatype Answer<+T> = Found(value: T) | NotFound

  /** What a lister of one namespace may list. */
  ghost predicate InScope(indexer: Indexer, namespace: string, selector: Selector, task: CodeEngineTask)
    reads indexer, task, task.labels
  {
    && task in indexer.items.Values
    && (namespace == ALL_NAMESPACES || task.namespace == namespace)
    && selector(LabelsOf(task))
  }

  // ---------- Lookup agrees with the scan ----------

  /** The objects of a namespaced resource live in namespaces, and namespaces have no slashes. */
  ghost predicate Namespaced(indexer: Indexer)
    reads indexer, indexer.items.Values
  {
    forall k :: k in indexer.items ==>
      indexer.items[k].namespace != "" && SlashFree(indexer.items[k].namespace)
  }

  ghost function Named(indexer: Indexer, namespace: string, name: string): set<CodeEngineTask>
    reads indexer, indexer.items.Values, set t <- indexer.items.Values :: t.labels
  {
    set t | t in indexer.items.Values && InScope(indexer, namespace, EVERYTHING, t) && t.name == name
  }

  /** The lookup finds a task exactly when a scan of the whole namespace finds it, and it alone, under
      that name. */
  lemma LookupIsTheScan(indexer: Indexer, namespace: string, name: string)
    requires indexer.Valid() && Namespaced(indexer)
    requires namespace != ALL_NAMESPACES && SlashFree(namespace)
    ensures var key := LookupKey(namespace, name);
      Named(indexer, namespace, name) == if key in indexer.items then {indexer.items[key]} else {}
  {
    var key := LookupKey(namespace, name);
    forall t | t in Named(indexer, namespace, name) ensures key in indexer.items && t == indexer.items[key] {
      var k :| k in indexer.items && indexer.items[k] == t;
      assert k == MetaKey(namespace, name) == key;
    }
    if key in indexer.items {
      var t := indexer.items[key];
      assert key == LookupKey(t.namespace, t.name);
      KeyIsInjective(t.namespace, t.name, namespace, name);
      assert t in Named(indexer, namespace, name);
    }
  }

  // ---------- The lister ----------

  class CodeEngineTaskNamespaceLister {
    const indexer: Indexer
    const namespace: string

    constructor (indexer: Indexer, namespace: string)
      ensures this.indexer == indexer && this.namespace == namespace
    {
      this.indexer, this.namespace := indexer, namespace;
    }

    /** Lists exactly what is in scope, each task once, in any order. */
    method List(selector: Selector) returns (ret: seq<CodeEngineTask>)
      requires indexer.Valid()
      ensures forall t :: t in ret <==> InScope(indexer, namespace, selector, t)
      ensures forall t :: t in ret <==>
        && t in indexer.items.Values
        && (namespace == "" || t.namespace == namespace)
        && selector(if t.labels == null then map[] else t.labels.entries)
      ensures forall i, j :: 0 <= i < j < |ret| ==> ret[i] != ret[j]
    {
      ret := [];
      var keys :=
        if namespace == ALL_NAMESPACES then indexer.items.Keys
        else if namespace in indexer.byNamespace then indexer.byNamespace[namespace]
        else {};
      ghost var all := keys;
      while keys != {}
        invariant keys <= all <= indexer.items.Keys
        invariant forall t :: t in ret <==>
          exists k :: k in all - keys && indexer.items[k] == t && selector(LabelsOf(t))
        invariant forall i, j :: 0 <= i < j < |ret| ==> ret[i] != ret[j]
        decreases keys
      {
        var k :| k in keys;
        var task := indexer.items[k];
        if selector(LabelsOf(task)) {
          ret := ret + [task];
        }
        keys := keys - {k};
      }
    }

    /** Looks up by key, and so finds what a scan of the namespace finds under that name, and it alone. */
    method Get(name: string) returns (r: Answer<CodeEngineTask>)
      ensures var key := LookupKey(namespace, name);
        r == if key in indexer.items then Found(indexer.items[key]) else NotFound
      ensures r.Found? <==> namespace + "/" + name in indexer.items
      ensures indexer.Valid() && Namespaced(indexer) && namespace != ALL_NAMESPACES && SlashFree(namespace) ==>
        Named(indexer, namespace, name) == if r.Found? then {r.value} else {}
    {
      if indexer.Valid() && Namespaced(indexer) && namespace != ALL_NAMESPACES && SlashFree(namespace) {
        LookupIsTheScan(indexer, namespace, name);
      }
      var key := namespace + "/" + name;
      if key !in indexer.items {
        return NotFound;
      }
      return Found(indexer.items[key]);
    }
  }

  /** A lister of all namespaces lists everything but finds nothing. */
  lemma AllNamespacesFindNothing(indexer: Indexer, name: string)
    requires indexer.Valid() && Namespaced(indexer)
    ensures LookupKey(ALL_NAMESPACES, name) !in indexer.items
    ensures forall t :: t in indexer.items.Values ==> InScope(indexer, "", EVERYTHING, t)
  {
    forall k | k in indexer.items ensures k != LookupKey(ALL_NAMESPACES, name) {
      var t := indexer.items[k];
      FirstSlash(t.namespace, t.name);
      assert k == LookupKey(t.namespace, t.name) && k[0] != '/';
      assert LookupKey(ALL_NAMESPACES, name)[0] == '/';
    }
  }
}
