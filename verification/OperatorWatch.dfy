/**
 * The operator's object watcher (pkg/operator/operator.go), the informer callbacks that update it and
 * the watch streams it feeds (pkg/operator/server.go), as one interleaved step system. Updates are
 * stored under the write lock and published in a later read-locked step; a new listener gets a replay
 * of the store that runs beside everything else.
 *
 * There are two kinds of objects, components and configurations. Each has its own map and its own
 * list of channels, but one lock guards them all. The source writes the code once for each kind.
 */
module WatcherSteps {
  import opened Sequences
  import opened Wrappers

  datatype Kind = ComponentKind | ConfigurationKind

  /** A custom resource, as far as the watcher looks at it. */
  datatype Object = Object(kind: Kind, uid: string, namespace: string, name: string, body: string)

  /** The place of an object: the map of its kind and its UID there. */
  datatype Key = Key(kind: Kind, uid: string)

  function KeyOf(o: Object): Key {
    Key(o.kind, o.uid)
  }

  /** A stored version of an object, told apart by the update call that stored it. */
  datatype Item = Item(call: nat, obj: Object)

  /** The two watch calls. Only the one for configurations compares the name. */
  datatype Watch = WatchComponents(namespace: string) | WatchConfiguration(namespace: string, name: string)

  function KindOf(w: Watch): Kind {
    if w.WatchComponents? then ComponentKind else ConfigurationKind
  }

  predicate Matches(w: Watch, o: Object) {
    o.namespace == w.namespace && (w.WatchComponents? || o.name == w.name)
  }

  /** compChans and configChans. */
  datatype Channels = Channels(components: seq<nat>, configurations: seq<nat>) {
    function Of(k: Kind): seq<nat> {
      if k == ComponentKind then components else configurations
    }

    function With(k: Kind, list: seq<nat>): (r: Channels)
      ensures r.Of(k) == list && forall l :: l != k ==> r.Of(l) == Of(l)
    {
      if k == ComponentKind then Channels(list, configurations) else Channels(components, list)
    }
  }

  /** The replay goroutine: not yet holding the read lock, inside its loop, or gone. */
  datatype Replay = Waiting | Reading(owed: set<Key>) | Ended

  datatype Listener = Listener(
    watch: Watch,
    since: nat,                  // update calls stored before it registered
    reading: bool,               // still in its receive loop
    replay: Replay,
    pending: multiset<Item>,     // publish goroutines blocked on its channel
    published: multiset<Item>,   // received from publish goroutines
    replayed: multiset<Item>,    // received from the replay
    forwarded: multiset<Item>)   // handed to the gRPC stream

  datatype State = State(
    store: map<Key, Item>,
    chans: Channels,
    listeners: map<nat, Listener>,
    log: seq<Object>,            // the object of every update call, in the order of storing
    unpublished: set<Item>)      // stored by calls that have not reached the publish step

  const INIT := State(map[], Channels([], []), map[], [], {})

  /** No replay of either kind holds the read lock. The other critical sections are single steps. */
  predicate WriteLockFree(s: State) {
    forall c :: c in s.listeners ==> !s.listeners[c].replay.Reading?
  }

  predicate Registered(s: State, c: nat) {
    c in s.listeners && c in s.chans.Of(KindOf(s.listeners[c].watch))
  }

  function KeysOfKind(store: map<Key, Item>, kind: Kind): set<Key> {
    set k | k in store && k.kind == kind
  }

  function Receive(l: Listener, item: Item): Listener {
    if Matches(l.watch, item.obj) then l.(forwarded := l.forwarded + multiset{item}) else l
  }

  /** The listener receives from a publish goroutine. */
  function TakePublished(l: Listener, item: Item): Listener
    requires item in l.pending
  {
    Receive(l, item).(pending := l.pending - multiset{item}, published := l.published + multiset{item})
  }

  /** The listener receives from its replay. */
  function TakeReplayed(l: Listener, item: Item): Listener
    requires l.replay.Reading?
  {
    Receive(l, item).(replay := Reading(l.replay.owed - {KeyOf(item.obj)}), replayed := l.replayed + multiset{item})
  }

  /** A publish spawns one send per entry of the channel list of the object's kind. */
  function Spawn(listeners: map<nat, Listener>, chans: seq<nat>, item: Item): map<nat, Listener> {
    map c | c in listeners ::
      listeners[c].(pending := listeners[c].pending[item := listeners[c].pending[item] + multiset(chans)[c]])
  }

  datatype Event =
    | Store(obj: Object)
    | Publish(item: Item)
    | Add(c: nat, watch: Watch)
    | StartReplay(c: nat)
    | ReplaySend(c: nat, key: Key)
    | EndReplay(c: nat)
    | Deliver(c: nat, item: Item)
    | Stop(c: nat)
    | Remove(c: nat)

  predicate Enabled(s: State, e: Event) {
    match e
    case Store(obj) => WriteLockFree(s)
    case Publish(item) => item in s.unpublished
    case Add(c, w) => c !in s.listeners && WriteLockFree(s)
    case StartReplay(c) => c in s.listeners && s.listeners[c].replay == Waiting
    case ReplaySend(c, key) =>
      && c in s.listeners && s.listeners[c].reading
      && s.listeners[c].replay.Reading? && key in s.listeners[c].replay.owed && key in s.store
    case EndReplay(c) => c in s.listeners && s.listeners[c].replay == Reading({})
    case Deliver(c, item) => c in s.listeners && s.listeners[c].reading && item in s.listeners[c].pending
    case Stop(c) => c in s.listeners && s.listeners[c].reading
    case Remove(c) => Registered(s, c) && !s.listeners[c].reading && WriteLockFree(s)
  }

  function Step(s: State, e: Event): State
    requires Enabled(s, e)
  {
    match e
    case Store(obj) =>
      var item := Item(|s.log|, obj);
      s.(store := s.store[KeyOf(obj) := item], log := s.log + [obj], unpublished := s.unpublished + {item})
    case Publish(item) =>
      s.(listeners := Spawn(s.listeners, s.chans.Of(item.obj.kind), item), unpublished := s.unpublished - {item})
    case Add(c, w) =>
      var l := Listener(w, |s.log|, true, Waiting, multiset{}, multiset{}, multiset{}, multiset{});
      s.(chans := s.chans.With(KindOf(w), s.chans.Of(KindOf(w)) + [c]), listeners := s.listeners[c := l])
    case StartReplay(c) =>
      var owed := KeysOfKind(s.store, KindOf(s.listeners[c].watch));
      s.(listeners := s.listeners[c := s.listeners[c].(replay := Reading(owed))])
    case ReplaySend(c, key) =>
      s.(listeners := s.listeners[c := TakeReplayed(s.listeners[c], s.store[key])])
    case EndReplay(c) => s.(listeners := s.listeners[c := s.listeners[c].(replay := Ended)])
    case Deliver(c, item) =>
      s.(listeners := s.listeners[c := TakePublished(s.listeners[c], item)])
    case Stop(c) => s.(listeners := s.listeners[c := s.listeners[c].(reading := false)])
    case Remove(c) =>
      var kind := KindOf(s.listeners[c].watch);
      s.(chans := s.chans.With(kind, Without(s.chans.Of(kind), c)))
  }

  ghost predicate Run(s: State, es: seq<Event>, t: State)
    decreases |es|
  {
    if es == [] then s == t else Enabled(s, es[0]) && Run(Step(s, es[0]), es[1..], t)
  }

  // ---------------------------------------------------------------------------------------------
  // The invariant

  /** The item was stored by an update call. */
  predicate Genuine(s: State, item: Item) {
    item.call < |s.log| && item.obj == s.log[item.call]
  }

  predicate Current(s: State, item: Item) {
    KeyOf(item.obj) in s.store && s.store[KeyOf(item.obj)] == item
  }

  /** Received, on its way, owed by the replay, or not yet published. */
  predicate Covered(s: State, l: Listener, item: Item) {
    || item in l.published || item in l.replayed
    || item in l.pending
    || l.replay.Waiting? || (l.replay.Reading? && KeyOf(item.obj) in l.replay.owed)
    || item in s.unpublished
  }

  predicate ListenerOk(s: State, c: nat)
    requires c in s.listeners
  {
    && (s.listeners[c].reading ==> Registered(s, c))
    && s.listeners[c].since <= |s.log|
    && (s.listeners[c].replay.Reading? ==>
          s.listeners[c].replay.owed <= KeysOfKind(s.store, KindOf(s.listeners[c].watch)))
  }

  /** A channel is listed once, and only in the list of its kind. */
  predicate ChannelOk(s: State, kind: Kind, c: nat) {
    c in s.chans.Of(kind) ==>
      c in s.listeners && KindOf(s.listeners[c].watch) == kind && multiset(s.chans.Of(kind))[c] == 1
  }

  ghost predicate StoreInv(s: State) {
    && (forall k :: k in s.store ==> KeyOf(s.store[k].obj) == k && Genuine(s, s.store[k]))
    && (forall item :: item in s.unpublished ==> Genuine(s, item))
    && (forall kind, c :: ChannelOk(s, kind, c))
    && (forall c :: c in s.listeners ==> ListenerOk(s, c))
  }

  /** At most one copy by publishing and one by the replay, of the right kind, and nothing that was never stored. */
  predicate Counted(s: State, l: Listener, item: Item) {
    && (item in l.pending || item in l.published ==> Genuine(s, item) && item !in s.unpublished)
    && (item in l.pending || item in l.published || item in l.replayed ==> item.obj.kind == KindOf(l.watch))
    && l.pending[item] + l.published[item] <= 1
    && l.replayed[item] <= 1
    && (item in l.replayed ==> Genuine(s, item) && !l.replay.Waiting?)
    // a running replay keeps writers out, so what it has sent is still current
    && (item in l.replayed && l.replay.Reading? ==> Current(s, item) && KeyOf(item.obj) !in l.replay.owed)
    && l.forwarded[item] == (if Matches(l.watch, item.obj) then l.published[item] + l.replayed[item] else 0)
  }

  /** A registered listener misses no current version of its kind, and no version stored since it registered. */
  predicate NotMissed(s: State, l: Listener, item: Item) {
    item.obj.kind == KindOf(l.watch) ==>
      && (Current(s, item) ==> Covered(s, l, item))
      && (Genuine(s, item) && l.since <= item.call ==>
            item in s.unpublished || item in l.pending || item in l.published)
  }

  predicate ItemInv(s: State, c: nat, item: Item)
    requires c in s.listeners
  {
    Counted(s, s.listeners[c], item) && (Registered(s, c) ==> NotMissed(s, s.listeners[c], item))
  }

  ghost predicate Inv(s: State) {
    StoreInv(s) && forall c, item :: c in s.listeners ==> ItemInv(s, c, item)
  }

  // ---------------------------------------------------------------------------------------------
  // Every step keeps the invariant

  /** How often a channel is listed after a registration or a removal. */
  lemma Listings(s: State, e: Event, kind: Kind, c: nat)
    requires Enabled(s, e) && (e.Add? || e.Remove?)
    ensures
      var t := Step(s, e);
      var own := if e.Add? then KindOf(e.watch) else KindOf(s.listeners[e.c].watch);
      && (c in t.chans.Of(kind) <==> multiset(t.chans.Of(kind))[c] > 0)
      && (c in s.chans.Of(kind) <==> multiset(s.chans.Of(kind))[c] > 0)
      && multiset(t.chans.Of(kind))[c] ==
         if kind != own || c != e.c then multiset(s.chans.Of(kind))[c]
         else if e.Add? then multiset(s.chans.Of(kind))[c] + 1
         else 0
  {
    if e.Remove? && c != e.c {
      WithoutKeepsOthers(s.chans.Of(KindOf(s.listeners[e.c].watch)), e.c, c);
    }
  }

  lemma StoreKeptByUpdate(s: State, e: Event)
    requires StoreInv(s) && Enabled(s, e) && (e.Store? || e.Publish?)
    ensures StoreInv(Step(s, e))
  {
    var t := Step(s, e);
    forall kind, c ensures ChannelOk(t, kind, c) {
      assert ChannelOk(s, kind, c);
    }
    forall c | c in t.listeners ensures ListenerOk(t, c) {
      assert ListenerOk(s, c);
    }
  }

  lemma StoreKeptByAddRemove(s: State, e: Event)
    requires StoreInv(s) && Enabled(s, e) && (e.Add? || e.Remove?)
    ensures StoreInv(Step(s, e))
  {
    var t := Step(s, e);
    forall kind, c ensures ChannelOk(t, kind, c) {
      Listings(s, e, kind, c);
      assert ChannelOk(s, kind, c);
    }
    forall c | c in t.listeners ensures ListenerOk(t, c) {
      Listings(s, e, KindOf(t.listeners[c].watch), c);
      assert c in s.listeners ==> ListenerOk(s, c);
    }
  }

  lemma StoreKeptByListener(s: State, e: Event)
    requires StoreInv(s) && Enabled(s, e)
    requires e.StartReplay? || e.ReplaySend? || e.EndReplay? || e.Deliver? || e.Stop?
    ensures StoreInv(Step(s, e))
  {
    var t := Step(s, e);
    forall kind, c ensures ChannelOk(t, kind, c) {
      assert ChannelOk(s, kind, c);
    }
    forall c | c in t.listeners ensures ListenerOk(t, c) {
      assert ListenerOk(s, c);
    }
  }

  lemma KeptByStore(s: State, e: Event, c: nat, item: Item)
    requires Inv(s) && Enabled(s, e) && e.Store? && c in s.listeners
    ensures ItemInv(Step(s, e), c, item)
  {
    assert ItemInv(s, c, item);
    var stored := Item(|s.log|, e.obj);
    assert ItemInv(s, c, stored);
  }

  lemma KeptByPublish(s: State, e: Event, c: nat, item: Item)
    requires Inv(s) && Enabled(s, e) && e.Publish? && c in s.listeners
    ensures ItemInv(Step(s, e), c, item)
  {
    assert ItemInv(s, c, item);
    assert ChannelOk(s, e.item.obj.kind, c);
    assert multiset(s.chans.Of(e.item.obj.kind))[c] <= 1 by {
      assert c in s.chans.Of(e.item.obj.kind) || multiset(s.chans.Of(e.item.obj.kind))[c] == 0;
    }
  }

  /** Nothing that concerns this listener or the store has changed. */
  lemma SameView(s: State, t: State, c: nat, item: Item)
    requires c in s.listeners && c in t.listeners && t.listeners[c] == s.listeners[c]
    requires t.store == s.store && t.log == s.log && t.unpublished == s.unpublished
    requires Registered(t, c) ==> Registered(s, c)
    requires ItemInv(s, c, item)
    ensures ItemInv(t, c, item)
  {
  }

  lemma Replayed(l: Listener, x: Item, item: Item)
    requires l.replay.Reading?
    ensures
      var m, n := TakeReplayed(l, x), if item == x then 1 else 0;
      && m.replayed[item] == l.replayed[item] + n
      && m.forwarded[item] == l.forwarded[item] + (if Matches(l.watch, x.obj) then n else 0)
      && m == l.(replay := Reading(l.replay.owed - {KeyOf(x.obj)}), replayed := m.replayed, forwarded := m.forwarded)
  {
  }

  lemma KeptByOwnReplaySend(s: State, e: Event, item: Item)
    requires Inv(s) && Enabled(s, e) && e.ReplaySend?
    ensures ItemInv(Step(s, e), e.c, item)
  {
    hide TakeReplayed, WriteLockFree;
    assert ItemInv(s, e.c, item);
    var sent := s.store[e.key];
    assert Genuine(s, sent) && KeyOf(sent.obj) == e.key;
    assert ItemInv(s, e.c, sent);
    Replayed(s.listeners[e.c], sent, item);
  }

  lemma KeptByReplaySend(s: State, e: Event, c: nat, item: Item)
    requires Inv(s) && Enabled(s, e) && e.ReplaySend? && c in s.listeners
    ensures ItemInv(Step(s, e), c, item)
  {
    if c == e.c {
      KeptByOwnReplaySend(s, e, item);
    } else {
      hide ItemInv, StoreInv, WriteLockFree, TakeReplayed;
      assert ItemInv(s, c, item);
      SameView(s, Step(s, e), c, item);
    }
  }

  lemma Taken(l: Listener, x: Item, item: Item)
    requires x in l.pending
    ensures
      var m, n := TakePublished(l, x), if item == x then 1 else 0;
      && m.pending[item] == l.pending[item] - n
      && m.published[item] == l.published[item] + n
      && m.forwarded[item] == l.forwarded[item] + (if Matches(l.watch, x.obj) then n else 0)
      && m == l.(pending := m.pending, published := m.published, forwarded := m.forwarded)
  {
  }

  lemma KeptByDeliver(s: State, e: Event, c: nat, item: Item)
    requires Inv(s) && Enabled(s, e) && e.Deliver? && c in s.listeners
    ensures ItemInv(Step(s, e), c, item)
  {
    hide TakePublished, WriteLockFree;
    assert ItemInv(s, c, item);
    if c == e.c {
      Taken(s.listeners[e.c], e.item, item);
    } else {
      hide ItemInv, StoreInv;
      SameView(s, Step(s, e), c, item);
    }
  }

  lemma KeptByAddRemove(s: State, e: Event, c: nat, item: Item)
    requires Inv(s) && Enabled(s, e) && (e.Add? || e.Remove?) && c in Step(s, e).listeners
    ensures ItemInv(Step(s, e), c, item)
  {
    hide StoreInv, WriteLockFree;
    if c in s.listeners {
      hide ItemInv;
      assert ItemInv(s, c, item);
      var t := Step(s, e);
      Listings(s, e, KindOf(s.listeners[c].watch), c);
      SameView(s, t, c, item);
    }
  }

  lemma KeptByReplayEnds(s: State, e: Event, c: nat, item: Item)
    requires Inv(s) && Enabled(s, e) && (e.StartReplay? || e.EndReplay? || e.Stop?) && c in s.listeners
    ensures ItemInv(Step(s, e), c, item)
  {
    hide StoreInv, WriteLockFree;
    assert ItemInv(s, c, item);
    if c != e.c {
      hide ItemInv;
      SameView(s, Step(s, e), c, item);
    }
  }

  lemma StepKeepsInv(s: State, e: Event)
    requires Inv(s) && Enabled(s, e)
    ensures Inv(Step(s, e))
  {
    hide ItemInv, StoreInv, WriteLockFree;
    match e {
      case Store(_) => StoreKeptByUpdate(s, e);
      case Publish(_) => StoreKeptByUpdate(s, e);
      case Add(_, _) => StoreKeptByAddRemove(s, e);
      case Remove(_) => StoreKeptByAddRemove(s, e);
      case _ => StoreKeptByListener(s, e);
    }
    var t := Step(s, e);
    forall c, item | c in t.listeners ensures ItemInv(t, c, item) {
      match e
      case Store(_) => KeptByStore(s, e, c, item);
      case Publish(_) => KeptByPublish(s, e, c, item);
      case ReplaySend(_, _) => KeptByReplaySend(s, e, c, item);
      case Deliver(_, _) => KeptByDeliver(s, e, c, item);
      case Add(_, _) => KeptByAddRemove(s, e, c, item);
      case Remove(_) => KeptByAddRemove(s, e, c, item);
      case _ => KeptByReplayEnds(s, e, c, item);
    }
  }

  lemma {:induction false} RunKeepsInv(s: State, es: seq<Event>, t: State)
    requires Inv(s) && Run(s, es, t)
    ensures Inv(t)
    decreases |es|
  {
    if es != [] {
      StepKeepsInv(s, es[0]);
      RunKeepsInv(Step(s, es[0]), es[1..], t);
    }
  }

  // ---------------------------------------------------------------------------------------------
  // Main results

  /**
   * No lost update. After any run, every registered listener has received the current version of
   * every object of its kind, or has it on its way, or its replay still owes it, or the version is
   * not published yet. The same holds, without the replay, of every version stored since it registered.
   */
  lemma NoLostUpdate(es: seq<Event>, s: State, c: nat, item: Item)
    requires Run(INIT, es, s) && Registered(s, c) && item.obj.kind == KindOf(s.listeners[c].watch)
    ensures Current(s, item) ==> Covered(s, s.listeners[c], item)
    ensures Genuine(s, item) && s.listeners[c].since <= item.call ==>
              item in s.unpublished || item in s.listeners[c].pending || item in s.listeners[c].published
  {
    RunKeepsInv(INIT, es, s);
    assert ItemInv(s, c, item);
  }

  /** Nothing is on its way: every update is published, every send received and every replay done. */
  predicate Quiet(s: State) {
    s.unpublished == {} &&
    forall c :: c in s.listeners && Registered(s, c) ==>
      s.listeners[c].replay == Ended && s.listeners[c].pending == multiset{}
  }

  /** When nothing is on its way, every listener has the current version of every object it asked for. */
  lemma QuietIsUpToDate(es: seq<Event>, s: State, c: nat, key: Key)
    requires Run(INIT, es, s) && Quiet(s) && Registered(s, c)
    requires key in s.store && key.kind == KindOf(s.listeners[c].watch)
    ensures
      var l, item := s.listeners[c], s.store[key];
      && (item in l.published || item in l.replayed)
      && (Matches(l.watch, item.obj) <==> item in l.forwarded)
  {
    RunKeepsInv(INIT, es, s);
    assert ItemInv(s, c, s.store[key]);
  }

  /** An update reaches a listener of its kind at most twice, unchanged, and no other listener. */
  lemma AtMostTwice(es: seq<Event>, s: State, c: nat, item: Item)
    requires Run(INIT, es, s) && c in s.listeners
    ensures
      var l := s.listeners[c];
      && l.pending[item] + l.published[item] <= 1 && l.replayed[item] <= 1
      && l.forwarded[item] <= l.published[item] + l.replayed[item] <= 2
      && (item in l.pending || item in l.published || item in l.replayed ==>
            Genuine(s, item) && item.obj.kind == KindOf(l.watch))
      && (item in l.forwarded ==> Matches(l.watch, item.obj))
  {
    RunKeepsInv(INIT, es, s);
    assert ItemInv(s, c, item);
  }

  // ---------------------------------------------------------------------------------------------
  // When the write lock can be had again

  /** The listener left its receive loop while its replay still had objects to send. */
  predicate Abandoned(s: State, c: nat) {
    c in s.listeners && !s.listeners[c].reading && s.listeners[c].replay.Reading? && s.listeners[c].replay.owed != {}
  }

  lemma AbandonedStep(s: State, e: Event, c: nat)
    requires Enabled(s, e) && Abandoned(s, c)
    ensures
      var t := Step(s, e);
      && Abandoned(t, c) && t.store == s.store && t.log == s.log && t.chans == s.chans
      && t.listeners.Keys == s.listeners.Keys
  {
    assert !WriteLockFree(s);
  }

  /** An abandoned replay holds the read lock for ever: nothing is stored, added or removed again. */
  lemma {:induction false} AbandonedForEver(s: State, es: seq<Event>, t: State, c: nat)
    requires Run(s, es, t) && Abandoned(s, c)
    ensures Abandoned(t, c) && !WriteLockFree(t)
    ensures t.store == s.store && t.log == s.log && t.chans == s.chans && t.listeners.Keys == s.listeners.Keys
    decreases |es|
  {
    if es != [] {
      AbandonedStep(s, es[0], c);
      AbandonedForEver(Step(s, es[0]), es[1..], t, c);
    }
  }

  function ReadingReplays(s: State): set<nat> {
    set c | c in s.listeners && s.listeners[c].replay.Reading?
  }

  lemma OwedIsStored(s: State, c: nat, key: Key)
    requires Inv(s) && c in s.listeners && s.listeners[c].replay.Reading? && key in s.listeners[c].replay.owed
    ensures key in s.store && KeyOf(s.store[key].obj) == key
  {
    assert ListenerOk(s, c);
  }

  predicate NoStops(es: seq<Event>) {
    forall e :: e in es ==> !e.Stop?
  }

  /** A replay whose listener reads on can be run to its end. */
  lemma {:induction false} Drain(s: State, c: nat) returns (es: seq<Event>, t: State)
    requires Inv(s) && c in s.listeners && s.listeners[c].replay.Reading? && !Abandoned(s, c)
    ensures Run(s, es, t) && Inv(t)
    ensures ReadingReplays(t) == ReadingReplays(s) - {c}
    ensures forall d :: Abandoned(t, d) ==> Abandoned(s, d)
    ensures NoStops(es) && forall d :: d in s.listeners && d != c ==> d in t.listeners && t.listeners[d] == s.listeners[d]
    decreases |s.listeners[c].replay.owed|
  {
    hide Inv;
    var owed := s.listeners[c].replay.owed;
    var e := EndReplay(c);
    if owed != {} {
      var key :| key in owed;
      e := ReplaySend(c, key);
      OwedIsStored(s, c, key);
    }
    var u := Step(s, e);
    StepKeepsInv(s, e);
    if owed == {} {
      es, t := [e], u;
    } else {
      var rest;
      assert u.listeners[c].replay.owed == owed - {e.key};
      rest, t := Drain(u, c);
      es := [e] + rest;
    }
  }

  lemma {:induction false} RunsJoin(s: State, es: seq<Event>, t: State, fs: seq<Event>, u: State)
    requires Run(s, es, t) && Run(t, fs, u)
    ensures Run(s, es + fs, u)
    decreases |es|
  {
    if es == [] {
      assert es + fs == fs;
    } else {
      assert (es + fs)[1..] == es[1..] + fs;
      RunsJoin(Step(s, es[0]), es[1..], t, fs, u);
    }
  }

  lemma {:induction false} DrainAll(s: State) returns (es: seq<Event>, t: State)
    requires Inv(s) && forall c :: !Abandoned(s, c)
    ensures Run(s, es, t) && WriteLockFree(t) && NoStops(es)
    ensures forall d :: d in s.listeners && !s.listeners[d].replay.Reading? ==>
                          d in t.listeners && t.listeners[d] == s.listeners[d]
    decreases |ReadingReplays(s)|
  {
    if ReadingReplays(s) == {} {
      forall c | c in s.listeners ensures !s.listeners[c].replay.Reading? {
        assert c !in ReadingReplays(s);
      }
      es, t := [], s;
    } else {
      var c :| c in ReadingReplays(s);
      var first, u := Drain(s, c);
      var rest;
      rest, t := DrainAll(u);
      es := first + rest;
      RunsJoin(s, first, u, rest, t);
    }
  }

  lemma RunPrepend(s: State, e: Event, es: seq<Event>, t: State)
    requires Enabled(s, e) && Run(Step(s, e), es, t)
    ensures Run(s, [e] + es, t)
  {
    assert ([e] + es)[1..] == es;
  }

  ghost predicate CanWrite(s: State) {
    exists es, t :: Run(s, es, t) && WriteLockFree(t)
  }

  /**
   * Leaving in the middle of a replay can happen, with one stored object and one impatient stream of
   * its kind. Nobody listens for the other kind, and its updates are blocked all the same.
   */
  lemma AbandonedHappens(obj: Object, w: Watch) returns (es: seq<Event>, s: State)
    requires KindOf(w) == obj.kind
    ensures Run(INIT, es, s) && Abandoned(s, 0)
    ensures forall kind :: kind != obj.kind ==> s.chans.Of(kind) == []
    ensures forall other :: !Enabled(s, Store(other))
    ensures !CanWrite(s)
  {
    var s1 := Step(INIT, Store(obj));
    var s2 := Step(s1, Add(0, w));
    var s3 := Step(s2, StartReplay(0));
    s := Step(s3, Stop(0));
    assert KeyOf(obj) in s.listeners[0].replay.owed;
    RunPrepend(s3, Stop(0), [], s);
    RunPrepend(s2, StartReplay(0), [Stop(0)], s);
    RunPrepend(s1, Add(0, w), [StartReplay(0)] + [Stop(0)], s);
    es := [Store(obj)] + ([Add(0, w)] + ([StartReplay(0)] + [Stop(0)]));
    RunPrepend(INIT, Store(obj), [Add(0, w)] + ([StartReplay(0)] + [Stop(0)]), s);
    assert Abandoned(s, 0);
    forall fs, t | Run(s, fs, t) ensures !WriteLockFree(t) {
      AbandonedForEver(s, fs, t, 0);
    }
  }

  /** A stream that left before its replay started abandons it as soon as it starts, unless there is nothing to send. */
  lemma LeftBeforeReplay(s: State, c: nat)
    requires c in s.listeners && !s.listeners[c].reading && s.listeners[c].replay == Waiting
    ensures Enabled(s, StartReplay(c))
    ensures Abandoned(Step(s, StartReplay(c)), c) <==> KeysOfKind(s.store, KindOf(s.listeners[c].watch)) != {}
  {
  }

  /**
   * Updates, new listeners and removals can go on exactly as long as no stream of either kind has left
   * its loop in the middle of its replay: there is one lock for both kinds.
   */
  lemma WritersProceedIff(es: seq<Event>, s: State)
    requires Run(INIT, es, s)
    ensures CanWrite(s) <==> forall c :: !Abandoned(s, c)
  {
    RunKeepsInv(INIT, es, s);
    if c :| Abandoned(s, c) {
      forall fs, t | Run(s, fs, t) ensures !WriteLockFree(t) {
        AbandonedForEver(s, fs, t, c);
      }
    } else {
      var fs, t := DrainAll(s);
    }
  }

  /** Every stream that ends does so after its replay has ended. */
  predicate StopsAfterReplay(es: seq<Event>) {
    forall i :: 0 <= i < |es| && es[i].Stop? ==> EndReplay(es[i].c) in es[..i]
  }

  lemma {:induction false} ReplayEnds(s: State, es: seq<Event>, t: State, c: nat)
    requires Run(s, es, t)
    requires EndReplay(c) in es || (c in s.listeners && s.listeners[c].replay == Ended)
    ensures c in t.listeners && t.listeners[c].replay == Ended
    decreases |es|
  {
    if es != [] {
      var u := Step(s, es[0]);
      assert es[0] == EndReplay(c) || EndReplay(c) in es[1..] || EndReplay(c) !in es;
      assert c in s.listeners && s.listeners[c].replay == Ended ==> c in u.listeners && u.listeners[c].replay == Ended;
      ReplayEnds(u, es[1..], t, c);
    }
  }

  /** A stream that is not reading any more was stopped on the way. */
  lemma {:induction false} StoppedOnTheWay(s: State, es: seq<Event>, t: State, c: nat)
    requires Run(s, es, t) && c in t.listeners && !t.listeners[c].reading
    requires c in s.listeners ==> s.listeners[c].reading
    ensures Stop(c) in es
    decreases |es|
  {
    var u := Step(s, es[0]);
    if es[0] != Stop(c) {
      assert c in u.listeners ==> u.listeners[c].reading;
      StoppedOnTheWay(u, es[1..], t, c);
    }
  }

  /** When every stream outlives its replay, no run ever blocks the writers. */
  lemma OutlivedReplaysBlockNobody(es: seq<Event>, s: State)
    requires Run(INIT, es, s) && StopsAfterReplay(es)
    ensures forall c :: !Abandoned(s, c)
    ensures CanWrite(s)
  {
    forall c ensures !Abandoned(s, c) {
      if Abandoned(s, c) {
        StoppedOnTheWay(INIT, es, s, c);
        var i :| 0 <= i < |es| && es[i] == Stop(c);
        assert EndReplay(c) in es[..i];
        assert EndReplay(c) in es;
        ReplayEnds(INIT, es, s, c);
      }
    }
    WritersProceedIff(es, s);
  }

  /** The stream has left before its replay had sent everything, or had even started. */
  predicate LeftEarly(s: State, c: nat) {
    c in s.listeners && !s.listeners[c].reading
    && (s.listeners[c].replay == Waiting || (s.listeners[c].replay.Reading? && s.listeners[c].replay.owed != {}))
  }

  /** The writers are blocked for good, or can get there without any further stream leaving. */
  ghost predicate CanBlock(s: State) {
    exists es, t, c :: Run(s, es, t) && NoStops(es) && Abandoned(t, c)
  }

  lemma LeavingStep(s: State, e: Event, c: nat)
    requires Enabled(s, e) && !e.Stop? && !LeftEarly(s, c)
    ensures !LeftEarly(Step(s, e), c)
  {
  }

  /** Without a further Stop, nobody leaves early who has not done so already. */
  lemma {:induction false} OnlyStopsLeaveEarly(s: State, es: seq<Event>, t: State)
    requires Run(s, es, t) && NoStops(es) && forall c :: !LeftEarly(s, c)
    ensures forall c :: !LeftEarly(t, c)
    decreases |es|
  {
    if es != [] {
      var u := Step(s, es[0]);
      assert es[0] in es && forall f :: f in es[1..] ==> f in es;
      forall c ensures !LeftEarly(u, c) {
        assert !LeftEarly(s, c);
        LeavingStep(s, es[0], c);
      }
      OnlyStopsLeaveEarly(u, es[1..], t);
    }
  }

  /** A stream that left before its replay started blocks the writers once there is something to replay. */
  lemma DoomedReplay(s: State, c: nat)
    requires Inv(s) && LeftEarly(s, c) && forall d :: !Abandoned(s, d)
    ensures CanBlock(s)
  {
    assert !Abandoned(s, c);
    assert s.listeners[c].replay == Waiting;
    var first, u := DrainAll(s);
    var w := u.listeners[c].watch;
    var obj := Object(KindOf(w), "", "", "", "");
    var v := Step(u, Store(obj));
    assert KeyOf(obj) in KeysOfKind(v.store, KindOf(w));
    LeftBeforeReplay(v, c);
    var t := Step(v, StartReplay(c));
    RunPrepend(v, StartReplay(c), [], t);
    RunPrepend(u, Store(obj), [StartReplay(c)], t);
    var last := [Store(obj)] + [StartReplay(c)];
    RunsJoin(s, first, u, last, t);
    assert NoStops(first + last);
  }

  /**
   * Who dooms the writers: without any further stream leaving, they can still end up blocked for good
   * exactly when some stream of either kind has left before its replay was through.
   */
  lemma BlockedByEarlyLeaversIff(es: seq<Event>, s: State)
    requires Run(INIT, es, s)
    ensures CanBlock(s) <==> exists c :: LeftEarly(s, c)
  {
    RunKeepsInv(INIT, es, s);
    if d :| Abandoned(s, d) {
      assert Run(s, [], s) && NoStops([]);
      assert LeftEarly(s, d);
    } else if c :| LeftEarly(s, c) {
      DoomedReplay(s, c);
    } else {
      forall fs, t, c | Run(s, fs, t) && NoStops(fs) ensures !Abandoned(t, c) {
        OnlyStopsLeaveEarly(s, fs, t);
        assert !LeftEarly(t, c);
      }
    }
  }
}
