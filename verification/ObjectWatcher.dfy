/**
 * The object watcher of pkg/operator/operator.go as the object it is. Each method is one critical
 * section of the source, or one send or receive on a listener's channel, and is proved to be the
 * matching step of WatcherSteps. The ghost model also holds what lives outside the object: the
 * goroutines and streams around it.
 */
module Watcher {
  import opened Sequences
  import opened WatcherSteps

  /** One goroutine blocked in "c <- obj". */
  datatype Send = Send(chan: nat, obj: Object)

  /** The same, with the update call the object came from. */
  datatype Origin = Origin(chan: nat, item: Item)

  /** One send for every listener, in their order. */
  function Sends(chans: seq<nat>, item: Item): (sends: seq<Origin>)
    ensures |sends| == |chans|
    ensures forall i :: 0 <= i < |chans| ==> sends[i] == Origin(chans[i], item)
  {
    seq(|chans|, i requires 0 <= i < |chans| => Origin(chans[i], item))
  }

  /** A publish starts as many sends to a channel as the channel is listed, and none of anything else. */
  lemma {:induction false} SendsPerChannel(chans: seq<nat>, item: Item, c: nat, x: Item)
    ensures multiset(Sends(chans, item))[Origin(c, x)] == if x == item then multiset(chans)[c] else 0
  {
    if chans != [] {
      var init := chans[..|chans| - 1];
      SendsPerChannel(init, item, c, x);
      assert chans == init + [chans[|chans| - 1]];
      assert Sends(chans, item) == Sends(init, item) + [Origin(chans[|chans| - 1], item)];
    }
  }

  lemma RemovedOne<T>(s: seq<T>, i: nat)
    requires i < |s|
    ensures multiset(s[..i] + s[i + 1..]) == multiset(s) - multiset{s[i]}
  {
    assert s == s[..i] + ([s[i]] + s[i + 1..]);
  }

  // ---------------------------------------------------------------------------------------------
  // What the object's fields say about the model

  /** The maps hold the stored objects, each under its UID in the map of its kind. */
  predicate MapsAgree(s: State, components: map<string, Object>, configurations: map<string, Object>) {
    && (forall k :: k in s.store ==>
          var objects := if k.kind == ComponentKind then components else configurations;
          k.uid in objects && objects[k.uid] == s.store[k].obj)
    && (forall uid :: uid in components ==> Key(ComponentKind, uid) in s.store)
    && (forall uid :: uid in configurations ==> Key(ConfigurationKind, uid) in s.store)
  }

  lemma MapsAfterStore(s: State, components: map<string, Object>, configurations: map<string, Object>, obj: Object)
    requires MapsAgree(s, components, configurations) && Enabled(s, Store(obj))
    ensures
      var t := Step(s, Store(obj));
      if obj.kind == ComponentKind then MapsAgree(t, components[obj.uid := obj], configurations)
      else MapsAgree(t, components, configurations[obj.uid := obj])
  {
  }

  lemma SameStore(s: State, t: State, components: map<string, Object>, configurations: map<string, Object>)
    requires MapsAgree(s, components, configurations) && t.store == s.store
    ensures MapsAgree(t, components, configurations)
  {
  }

  lemma MapsStay(s: State, e: Event, components: map<string, Object>, configurations: map<string, Object>)
    requires MapsAgree(s, components, configurations) && Enabled(s, e) && !e.Store?
    ensures MapsAgree(Step(s, e), components, configurations)
  {
    hide MapsAgree;
    assert Step(s, e).store == s.store;
    SameStore(s, Step(s, e), components, configurations);
  }

  predicate FromOrigins(goroutines: seq<Send>, origins: seq<Origin>) {
    |origins| == |goroutines| &&
    forall i :: 0 <= i < |origins| ==> goroutines[i] == Send(origins[i].chan, origins[i].item.obj)
  }

  /** So many goroutines hold this item for this channel as the listener has pending. */
  predicate PendingAgrees(s: State, origins: seq<Origin>, c: nat, item: Item) {
    multiset(origins)[Origin(c, item)] == if c in s.listeners then s.listeners[c].pending[item] else 0
  }

  ghost predicate SendsAgree(s: State, origins: seq<Origin>) {
    forall c, item :: PendingAgrees(s, origins, c, item)
  }

  lemma PendingStays(s: State, e: Event, c: nat, item: Item)
    requires Enabled(s, e) && !e.Publish? && !e.Deliver?
    ensures
      var t := Step(s, e);
      && (c in s.listeners ==> c in t.listeners && t.listeners[c].pending[item] == s.listeners[c].pending[item])
      && (c in t.listeners && c !in s.listeners ==> t.listeners[c].pending[item] == 0)
  {
  }

  lemma SendsStay(s: State, e: Event, origins: seq<Origin>)
    requires SendsAgree(s, origins) && Enabled(s, e) && !e.Publish? && !e.Deliver?
    ensures SendsAgree(Step(s, e), origins)
  {
    forall c, item ensures PendingAgrees(Step(s, e), origins, c, item) {
      assert PendingAgrees(s, origins, c, item);
      PendingStays(s, e, c, item);
    }
  }

  lemma Unlisted(s: State, kind: Kind, c: nat)
    requires Inv(s)
    ensures c !in s.listeners ==> multiset(s.chans.Of(kind))[c] == 0
  {
    assert ChannelOk(s, kind, c);
    assert c in s.chans.Of(kind) || multiset(s.chans.Of(kind))[c] == 0;
  }

  /** Publishing adds to the goroutines what it adds to the listeners' pending sends. */
  lemma SendsAfterPublish(s: State, item: Item, origins: seq<Origin>)
    requires Inv(s) && SendsAgree(s, origins) && Enabled(s, Publish(item))
    ensures SendsAgree(Step(s, Publish(item)), origins + Sends(s.chans.Of(item.obj.kind), item))
  {
    hide Inv;
    var chans, t := s.chans.Of(item.obj.kind), Step(s, Publish(item));
    var sends := Sends(chans, item);
    forall c, x ensures PendingAgrees(t, origins + sends, c, x) {
      SendsPerChannel(chans, item, c, x);
      assert multiset(origins + sends) == multiset(origins) + multiset(sends);
      assert PendingAgrees(s, origins, c, x);
      Unlisted(s, item.obj.kind, c);
    }
  }

  lemma SendsAfterDeliver(s: State, origins: seq<Origin>, i: nat)
    requires SendsAgree(s, origins) && i < |origins|
    requires Enabled(s, Deliver(origins[i].chan, origins[i].item))
    ensures SendsAgree(Step(s, Deliver(origins[i].chan, origins[i].item)), origins[..i] + origins[i + 1..])
  {
    var o := origins[i];
    var t, rest := Step(s, Deliver(o.chan, o.item)), origins[..i] + origins[i + 1..];
    RemovedOne(origins, i);
    forall c, x ensures PendingAgrees(t, rest, c, x) {
      assert PendingAgrees(s, origins, c, x);
      assert PendingAgrees(s, origins, o.chan, o.item);
    }
  }

  lemma CanDeliver(s: State, origins: seq<Origin>, i: nat)
    requires SendsAgree(s, origins) && i < |origins|
    ensures origins[i].chan in s.listeners && origins[i].item in s.listeners[origins[i].chan].pending
  {
    assert origins[i] in multiset(origins);
    assert PendingAgrees(s, origins, origins[i].chan, origins[i].item);
  }

  lemma StillFromOrigins(before: seq<Send>, origins: seq<Origin>, after: seq<Send>, sends: seq<Origin>)
    requires FromOrigins(before, origins) && |after| == |before| + |sends| && after[..|before|] == before
    requires forall k :: 0 <= k < |sends| ==> after[|before| + k] == Send(sends[k].chan, sends[k].item.obj)
    ensures FromOrigins(after, origins + sends)
  {
    forall i | 0 <= i < |after| ensures after[i] == Send((origins + sends)[i].chan, (origins + sends)[i].item.obj) {
      if i < |before| {
        assert after[i] == after[..|before|][i];
      } else {
        assert after[|before| + (i - |before|)] == after[i];
      }
    }
  }

  lemma ChannelsAfterRemove(s: State, c: nat)
    requires Enabled(s, Remove(c))
    ensures c in s.listeners
    ensures
      var kind, t := KindOf(s.listeners[c].watch), Step(s, Remove(c));
      t.chans == s.chans.With(kind, Without(s.chans.Of(kind), c))
  {
  }

  lemma NoneYet(c: nat)
    ensures Without([], c) == []
  {
  }

  lemma OneMore(chans: seq<nat>, i: nat, c: nat)
    requires i < |chans|
    ensures Without(chans[..i + 1], c) == Without(chans[..i], c) + (if chans[i] == c then [] else [chans[i]])
  {
    assert chans[..i + 1][..i] == chans[..i];
  }

  class ObjectWatcher {
    var componentsMap: map<string, Object>
    var configurationsMap: map<string, Object>
    var compChans: seq<nat>
    var configChans: seq<nat>
    var goroutines: seq<Send>        // sends spawned and not yet received
    ghost var origins: seq<Origin>   // where they came from
    ghost var model: State

    function MapOf(kind: Kind): map<string, Object>
      reads this
    {
      if kind == ComponentKind then componentsMap else configurationsMap
    }

    function ChansOf(kind: Kind): seq<nat>
      reads this
    {
      if kind == ComponentKind then compChans else configChans
    }

    /** The object shows exactly its part of the model, and the model keeps the invariant. */
    ghost predicate Valid()
      reads this
    {
      && Inv(model)
      && MapsAgree(model, componentsMap, configurationsMap)
      && FromOrigins(goroutines, origins) && SendsAgree(model, origins)
      && compChans == model.chans.components && configChans == model.chans.configurations
    }

    constructor ()
      ensures Valid() && model == INIT
    {
      componentsMap, configurationsMap, compChans, configChans, goroutines := map[], map[], [], [], [];
      origins, model := [], INIT;
    }

    /** The write-locked half of updateComponent and updateConfiguration. */
    method Store(obj: Object)
      requires Valid() && Enabled(model, Event.Store(obj))
      modifies this
      ensures Valid() && model == Step(old(model), Event.Store(obj))
    {
      hide Inv, Enabled, MapsAgree, SendsAgree;
      StepKeepsInv(model, Event.Store(obj));
      MapsAfterStore(model, componentsMap, configurationsMap, obj);
      SendsStay(model, Event.Store(obj), origins);
      if obj.kind == ComponentKind {
        componentsMap := componentsMap[obj.uid := obj];
      } else {
        configurationsMap := configurationsMap[obj.uid := obj];
      }
      model := Step(model, Event.Store(obj));
    }

    /** componentChange and configurationChange, under the read lock. */
    method Publish(obj: Object, ghost item: Item)
      requires Valid() && item.obj == obj && Enabled(model, Event.Publish(item))
      modifies this
      ensures Valid() && model == Step(old(model), Event.Publish(item))
    {
      hide Inv, Enabled, MapsAgree, SendsAgree;
      ghost var e := Event.Publish(item);
      StepKeepsInv(model, e);
      MapsStay(model, e, componentsMap, configurationsMap);
      SendsAfterPublish(model, item, origins);
      var chans := ChansOf(obj.kind);
      ghost var before := goroutines;
      for i := 0 to |chans|
        invariant model == old(model) && origins == old(origins) && compChans == old(compChans)
        invariant configChans == old(configChans)
        invariant componentsMap == old(componentsMap) && configurationsMap == old(configurationsMap)
        invariant |goroutines| == |before| + i && goroutines[..|before|] == before
        invariant forall k :: 0 <= k < i ==> goroutines[|before| + k] == Send(chans[k], obj)
      {
        goroutines := goroutines + [Send(chans[i], obj)];
      }
      ghost var sends := Sends(chans, item);
      StillFromOrigins(before, origins, goroutines, sends);
      origins := origins + sends;
      model := Step(model, e);
    }

    /** The write-locked half of addComponentListener and addConfigurationListener. */
    method AddListener(c: nat, watch: Watch)
      requires Valid() && Enabled(model, Add(c, watch))
      modifies this
      ensures Valid() && model == Step(old(model), Add(c, watch))
    {
      hide Inv, Enabled, MapsAgree, SendsAgree;
      ghost var e := Add(c, watch);
      StepKeepsInv(model, e);
      MapsStay(model, e, componentsMap, configurationsMap);
      SendsStay(model, e, origins);
      if watch.WatchComponents? {
        compChans := compChans + [c];
      } else {
        configChans := configChans + [c];
      }
      model := Step(model, e);
    }

    /** removeComponentListener and removeConfigurationListener. */
    method RemoveListener(c: nat, kind: Kind)
      requires Valid() && Enabled(model, Remove(c)) && kind == KindOf(model.listeners[c].watch)
      modifies this
      ensures Valid() && model == Step(old(model), Remove(c))
    {
      hide Inv, MapsAgree, SendsAgree, FromOrigins, Enabled, Step, Without;
      ghost var e := Remove(c);
      ChannelsAfterRemove(model, c);
      NoneYet(c);
      StepKeepsInv(model, e);
      MapsStay(model, e, componentsMap, configurationsMap);
      SendsStay(model, e, origins);
      ghost var next := Step(model, e);
      var chans := ChansOf(kind);
      var list: seq<nat> := [];
      for i := 0 to |chans|
        invariant unchanged(this)
        invariant list == Without(chans[..i], c)
      {
        OneMore(chans, i, c);
        if chans[i] != c {
          list := list + [chans[i]];
        }
      }
      assert chans[..|chans|] == chans;
      if kind == ComponentKind {
        compChans := list;
      } else {
        configChans := list;
      }
      model := next;
    }

    /** replayComponents and replayConfigs take the read lock: the replay owes what its map holds now. */
    method StartReplay(c: nat, kind: Kind) returns (owed: set<string>)
      requires Valid() && Enabled(model, Event.StartReplay(c)) && kind == KindOf(model.listeners[c].watch)
      modifies this`model
      ensures Valid() && model == Step(old(model), Event.StartReplay(c))
      ensures forall uid :: uid in owed <==> Key(kind, uid) in model.listeners[c].replay.owed
    {
      hide Inv, SendsAgree;
      ghost var e := Event.StartReplay(c);
      StepKeepsInv(model, e);
      MapsStay(model, e, componentsMap, configurationsMap);
      SendsStay(model, e, origins);
      owed := MapOf(kind).Keys;
      model := Step(model, e);
    }

    /** A turn of the replay loop whose send is received. */
    method ReplaySend(c: nat, kind: Kind, uid: string) returns (obj: Object)
      requires Valid() && Enabled(model, Event.ReplaySend(c, Key(kind, uid)))
      modifies this`model
      ensures Valid() && model == Step(old(model), Event.ReplaySend(c, Key(kind, uid)))
      ensures obj == old(model).store[Key(kind, uid)].obj
    {
      hide Inv, SendsAgree;
      ghost var e := Event.ReplaySend(c, Key(kind, uid));
      StepKeepsInv(model, e);
      MapsStay(model, e, componentsMap, configurationsMap);
      SendsStay(model, e, origins);
      obj := MapOf(kind)[uid];
      model := Step(model, e);
    }

    /** The listener receives from the i-th goroutine, which ends. */
    method Receive(i: nat) returns (obj: Object)
      requires Valid() && i < |goroutines| && goroutines[i].chan in model.listeners
      requires model.listeners[goroutines[i].chan].reading
      modifies this
      ensures Valid()
      ensures old(Enabled(model, Deliver(origins[i].chan, origins[i].item)))
      ensures model == Step(old(model), Deliver(old(origins[i].chan), old(origins[i].item)))
      ensures obj == old(origins[i].item.obj)
    {
      hide Inv, MapsAgree, SendsAgree;
      ghost var o := origins[i];
      ghost var e := Deliver(o.chan, o.item);
      CanDeliver(model, origins, i);
      StepKeepsInv(model, e);
      MapsStay(model, e, componentsMap, configurationsMap);
      SendsAfterDeliver(model, origins, i);
      obj := goroutines[i].obj;
      goroutines := goroutines[..i] + goroutines[i + 1..];
      origins := origins[..i] + origins[i + 1..];
      model := Step(model, e);
    }
  }
}
