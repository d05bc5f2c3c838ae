/**
 * The components manager as an object. Metadata maps live on the heap and are shared with whoever
 * sent the spec, so an instance must be given its own copy.
 */
module ManagerObject {
  import opened Wrappers
  import C = Component

  /** A Go map[string]string. */
  class Properties {
    var entries: map<string, string>

    constructor ()
      ensures entries == map[]
    {
      entries := map[];
    }
  }

  datatype Spec = Spec(name: string, typ: string, version: string, metadata: Properties?)

  datatype Notice = Notice(category: C.Category, op: C.Operation, spec: Spec)

  function Contents(p: Properties?): C.Metadata
    reads p
  {
    if p == null then None else Some(p.entries)
  }

  function SpecView(s: Spec): C.Spec
    reads s.metadata
  {
    C.Spec(s.name, s.typ, s.version, Contents(s.metadata))
  }

  /** The metadata objects of a collection of specs. */
  ghost function Maps(specs: set<Spec>): set<Properties> {
    set s | s in specs && s.metadata != null :: s.metadata
  }

  ghost function IndexView(components: map<string, Spec>): map<string, C.Spec>
    reads Maps(components.Values)
  {
    map k | k in components :: SpecView(components[k])
  }

  ghost function NoticesView(notices: seq<Notice>): seq<C.Notice>
    reads set n | n in notices && n.spec.metadata != null :: n.spec.metadata
  {
    seq(|notices|, i requires 0 <= i < |notices|
                   reads set n | n in notices && n.spec.metadata != null :: n.spec.metadata
        => C.Notice(notices[i].category, notices[i].op, SpecView(notices[i].spec)))
  }

  twostate lemma SameIndex(components: map<string, Spec>)
    requires forall k :: k in components && components[k].metadata != null ==> unchanged(components[k].metadata)
    ensures IndexView(components) == old(IndexView(components))
  {
  }

  twostate lemma SameNotices(notices: seq<Notice>)
    requires forall n :: n in notices && n.spec.metadata != null ==> unchanged(n.spec.metadata)
    ensures NoticesView(notices) == old(NoticesView(notices))
  {
  }

  /** Every spec is stored under its own key. */
  predicate Keyed(components: map<string, Spec>) {
    forall k :: k in components ==> k == C.Key(components[k].typ, components[k].name)
  }

  /** reflect.DeepEqual on two metadata maps. */
  predicate SameMetadata(a: Properties?, b: Properties?)
    reads a, b
  {
    Contents(a) == Contents(b)
  }

  class ComponentsManager {
    const appId: string
    var components: map<string, Spec>
    var instances: map<string, nat>
    var made: nat
    var log: seq<C.InstanceEvent>
    var notices: seq<Notice>          // sent on the change notification channel

    ghost predicate Valid()
      reads this
    {
      Keyed(components)
    }

    ghost function View(): C.State
      reads this, Maps(components.Values), set n | n in notices && n.spec.metadata != null :: n.spec.metadata
    {
      C.State(IndexView(components), instances, made, log, NoticesView(notices))
    }

    constructor (appId: string)
      ensures Valid() && View() == C.INIT && this.appId == appId
    {
      this.appId := appId;
      components, instances, made, log, notices := map[], map[], 0, [], [];
    }

    /** getComponent: a scan over the map's values, in any order. */
    method GetComponent(typ: string, name: string) returns (found: Option<Spec>)
      requires Valid()
      ensures found.None? <==> C.Lookup(IndexView(components), typ, name).None?
      ensures found.Some? ==> found.value in components.Values
                              && C.Lookup(IndexView(components), typ, name) == Some(SpecView(found.value))
    {
      var keys := components.Keys;
      while keys != {}
        invariant keys <= components.Keys
        invariant forall k :: k in components && k !in keys ==>
                    !(components[k].typ == typ && components[k].name == name)
      {
        var k :| k in keys;
        if components[k].typ == typ && components[k].name == name {
          return Some(components[k]);
        }
        keys := keys - {k};
      }
      return None;
    }

    /** The copy an instance is initialised with; the original is only read. */
    method CloneFor(source: Properties?) returns (copy: Properties)
      ensures fresh(copy)
      ensures copy.entries == C.InstanceProperties(Contents(source), appId)
      ensures "consumerID" in copy.entries && copy.entries["consumerID"] == appId
      ensures forall k :: k != "consumerID" ==>
                && (k in copy.entries <==> source != null && k in source.entries)
                && (source != null && k in source.entries ==> copy.entries[k] == source.entries[k])
    {
      copy := new Properties();
      if source != null {
        var keys := source.entries.Keys;
        while keys != {}
          invariant fresh(copy) && keys <= source.entries.Keys
          invariant copy.entries == source.entries - keys
        {
          var k :| k in keys;
          copy.entries := copy.entries[k := source.entries[k]];
          keys := keys - {k};
        }
      }
      copy.entries := copy.entries["consumerID" := appId];
    }

    method InitPubSub(spec: Spec, o: C.Outcome) returns (ok: bool)
      requires Valid()
      modifies this`instances, this`made, this`log
      ensures Valid()
      ensures (View(), ok) == C.InitPubSub(old(View()), appId, SpecView(spec), o)
    {
      hide C.InstanceProperties, Keyed;
      ghost var m := View();
      if !o.createOk {
        return false;
      }
      var id := made;
      made := made + 1;
      log := log + [C.Created(spec.name, id, spec.typ, spec.version)];
      var metadata := CloneFor(spec.metadata);
      SameIndex(components);
      SameNotices(notices);
      log := log + [C.Initialised(spec.name, id, metadata.entries)];
      assert log == m.log + [C.Created(spec.name, id, spec.typ, spec.version),
                             C.Initialised(spec.name, id, metadata.entries)];
      assert View() == m.(made := made, log := log);
      if !o.initOk {
        return false;
      }
      instances := instances[spec.name := id];
      assert View() == m.(made := made, log := log, instances := instances);
      return true;
    }

    method UpdatePubSub(spec: Spec, o: C.Outcome) returns (ok: bool)
      requires Valid()
      modifies this`instances, this`made, this`log
      ensures Valid()
      ensures (View(), ok) == C.UpdatePubSub(old(View()), appId, SpecView(spec), o)
    {
      ghost var m := View();
      if spec.name in instances {
        log := log + [C.Closed(spec.name, instances[spec.name])];
        assert View() == m.(log := log);
        if !o.closeOk {
          return false;
        }
      }
      ok := InitPubSub(spec, o);
    }

    /** The switch over the category of a new or changed spec. */
    method UpdateInstances(category: C.Category, operation: C.Operation, spec: Spec, o: C.Outcome) returns (ok: bool)
      requires Valid() && category == C.CategoryOf(spec.typ) && operation == C.OperationOn(View(), SpecView(spec))
      modifies this`instances, this`made, this`log
      ensures Valid()
      ensures (View(), ok) == C.Instances(old(View()), appId, SpecView(spec), o)
    {
      hide C.CategoryOf, C.InitPubSub, C.UpdatePubSub, C.OperationOn;
      ok := true;
      if category == C.Pubsub {
        if operation == C.Update {
          ok := UpdatePubSub(spec, o);
        } else {
          ok := InitPubSub(spec, o);
        }
      }
    }

    method StoreComponent(spec: Spec)
      requires Valid()
      modifies this`components
      ensures Valid()
      ensures View() == old(View()).(components := old(View()).components[C.KeyOf(SpecView(spec)) := SpecView(spec)])
    {
      ghost var before := IndexView(components);
      var key := C.Key(spec.typ, spec.name);
      components := components[key := spec];
      assert IndexView(components) == before[key := SpecView(spec)];
    }

    method PublishChange(category: C.Category, operation: C.Operation, spec: Spec)
      requires Valid()
      modifies this`notices
      ensures Valid()
      ensures View() == old(View()).(notices := old(View()).notices + [C.Notice(category, operation, SpecView(spec))])
    {
      notices := notices + [Notice(category, operation, spec)];
    }

    /** addOrUpdateComponent follows C.Step; no metadata map that existed before is written. */
    method AddOrUpdateComponent(spec: Spec, o: C.Outcome)
      requires Valid()
      modifies this
      ensures Valid()
      ensures View() == C.Step(old(View()), appId, old(SpecView(spec)), o)
      ensures spec.metadata != null ==> unchanged(spec.metadata)
    {
      hide C.CategoryOf, C.Instances, C.Lookup, C.KeyOf;
      ghost var m := View();
      var known := GetComponent(spec.typ, spec.name);
      assert View() == m;
      if known.Some? && SameMetadata(known.value.metadata, spec.metadata) {
        return;
      }
      var operation := if known.Some? then C.Update else C.Insert;
      var category := C.CategoryOf(spec.typ);
      if category == C.NoCategory {
        return;
      }
      var ok := UpdateInstances(category, operation, spec, o);
      StoreComponent(spec);
      if ok {
        PublishChange(category, operation, spec);
      }
    }
  }
}
