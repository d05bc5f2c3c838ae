/**
 * The components manager (pkg/runtime/components_manager.go): a stream of component specs becomes an
 * index of specs, a table of running pub/sub instances and a stream of change notifications.
 *
 * Component is the manager's behaviour on values. The object itself, with metadata maps on the heap,
 * is in ManagerObject and is proved to follow it step by step.
 */
module Component {
  import opened Wrappers

  /** A Go map of strings: None is the nil map, which differs from an empty one. */
  type Metadata = Option<map<string, string>>

  datatype Spec = Spec(name: string, typ: string, version: string, metadata: Metadata)

  datatype Category = Bindings | Pubsub | SecretStores | Middleware | NoCategory

  datatype Operation = Insert | Update

  datatype Notice = Notice(category: Category, op: Operation, spec: Spec)

  predicate HasPrefix(s: string, prefix: string) {
    prefix <= s
  }

  /** extractComponentCategory: the first category that is a dotted prefix of the type. */
  function CategoryOf(typ: string): Category {
    if HasPrefix(typ, "bindings.") then Bindings
    else if HasPrefix(typ, "pubsub.") then Pubsub
    else if HasPrefix(typ, "secretstores.") then SecretStores
    else if HasPrefix(typ, "middleware.") then Middleware
    else NoCategory
  }

  /** getComponentKey. */
  function Key(typ: string, name: string): string {
    typ + "-" + name
  }

  predicate SamePair(a: Spec, b: Spec) {
    a.typ == b.typ && a.name == b.name
  }

  function KeyOf(s: Spec): string {
    Key(s.typ, s.name)
  }

  // ---------------------------------------------------------------------------------------------
  // One update

  /** What happened to the pub/sub instances, told apart by the order of their creation. */
  datatype InstanceEvent =
    | Created(name: string, id: nat, typ: string, version: string)
    | Initialised(name: string, id: nat, properties: map<string, string>)
    | Closed(name: string, id: nat)

  /** How the calls into the registry and the instances would go. */
  datatype Outcome = Outcome(closeOk: bool, createOk: bool, initOk: bool)

  const ALL_WELL := Outcome(true, true, true)

  datatype State = State(
    components: map<string, Spec>,
    instances: map<string, nat>,
    made: nat,
    log: seq<InstanceEvent>,
    notices: seq<Notice>)

  const INIT := State(map[], map[], 0, [], [])

  /** The indexed spec of a pair: it can only be under the pair's key. */
  function Lookup(components: map<string, Spec>, typ: string, name: string): Option<Spec> {
    var k := Key(typ, name);
    if k in components && components[k].typ == typ && components[k].name == name then Some(components[k]) else None
  }

  function OperationOn(m: State, spec: Spec): Operation {
    if Lookup(m.components, spec.typ, spec.name).Some? then Update else Insert
  }

  predicate Unchanged(m: State, spec: Spec) {
    var known := Lookup(m.components, spec.typ, spec.name);
    known.Some? && known.value.metadata == spec.metadata
  }

  /** The spec will be stored, whether or not its instance comes up. */
  predicate Accepts(m: State, spec: Spec) {
    !Unchanged(m, spec) && CategoryOf(spec.typ) != NoCategory
  }

  /** The metadata an instance is initialised with. */
  function InstanceProperties(metadata: Metadata, appId: string): map<string, string> {
    (if metadata.Some? then metadata.value else map[])["consumerID" := appId]
  }

  function InitPubSub(m: State, appId: string, spec: Spec, o: Outcome): (State, bool) {
    if !o.createOk then (m, false)
    else
      var id := m.made;
      var born := m.(made := id + 1, log := m.log + [Created(spec.name, id, spec.typ, spec.version),
                                                     Initialised(spec.name, id, InstanceProperties(spec.metadata, appId))]);
      if !o.initOk then (born, false) else (born.(instances := born.instances[spec.name := id]), true)
  }

  function UpdatePubSub(m: State, appId: string, spec: Spec, o: Outcome): (State, bool) {
    if spec.name in m.instances then
      var closed := m.(log := m.log + [Closed(spec.name, m.instances[spec.name])]);
      if !o.closeOk then (closed, false) else InitPubSub(closed, appId, spec, o)
    else InitPubSub(m, appId, spec, o)
  }

  /** The instance part of an update and whether it went well. */
  function Instances(m: State, appId: string, spec: Spec, o: Outcome): (State, bool) {
    if CategoryOf(spec.typ) != Pubsub then (m, true)
    else if OperationOn(m, spec) == Update then UpdatePubSub(m, appId, spec, o)
    else InitPubSub(m, appId, spec, o)
  }

  /** addOrUpdateComponent. A failed instance is stored all the same, but not announced. */
  function Step(m: State, appId: string, spec: Spec, o: Outcome): State {
    if !Accepts(m, spec) then m
    else
      var (next, ok) := Instances(m, appId, spec, o);
      var stored := next.(components := next.components[KeyOf(spec) := spec]);
      if ok then stored.(notices := stored.notices + [Notice(CategoryOf(spec.typ), OperationOn(m, spec), spec)])
      else stored
  }

  // ---------------------------------------------------------------------------------------------
  // Whole streams

  datatype Input = Input(spec: Spec, outcome: Outcome)

  function After(appId: string, inputs: seq<Input>): State {
    if inputs == [] then INIT
    else
      var last := inputs[|inputs| - 1];
      Step(After(appId, inputs[..|inputs| - 1]), appId, last.spec, last.outcome)
  }

  /** An accepted spec, what was done with it, how the calls went and whether it was announced. */
  datatype Entry = Entry(spec: Spec, op: Operation, outcome: Outcome, announced: bool)

  function History(appId: string, inputs: seq<Input>): seq<Entry> {
    if inputs == [] then []
    else
      var init, last := inputs[..|inputs| - 1], inputs[|inputs| - 1];
      var m := After(appId, init);
      if Accepts(m, last.spec) then
        History(appId, init) +
        [Entry(last.spec, OperationOn(m, last.spec), last.outcome,
               Instances(m, appId, last.spec, last.outcome).1)]
      else History(appId, init)
  }

  function Announced(h: seq<Entry>): seq<Notice> {
    if h == [] then []
    else
      var last := h[|h| - 1];
      Announced(h[..|h| - 1]) +
      (if last.announced then [Notice(CategoryOf(last.spec.typ), last.op, last.spec)] else [])
  }

  /** The last entry with a key. */
  function LastWithKey(h: seq<Entry>, k: string): (i: int)
    ensures -1 <= i < |h|
    ensures i >= 0 ==> KeyOf(h[i].spec) == k
    ensures forall j :: i < j < |h| ==> KeyOf(h[j].spec) != k
  {
    if h == [] then -1
    else if KeyOf(h[|h| - 1].spec) == k then |h| - 1
    else LastWithKey(h[..|h| - 1], k)
  }

  /** The last entry for a pair of type and name. */
  function LastOfPair(h: seq<Entry>, typ: string, name: string): (i: int)
    ensures -1 <= i < |h|
    ensures i >= 0 ==> h[i].spec.typ == typ && h[i].spec.name == name
    ensures forall j :: i < j < |h| ==> !(h[j].spec.typ == typ && h[j].spec.name == name)
  {
    if h == [] then -1
    else if h[|h| - 1].spec.typ == typ && h[|h| - 1].spec.name == name then |h| - 1
    else LastOfPair(h[..|h| - 1], typ, name)
  }

  /** What the last input of a stream adds. */
  lemma OneMore(appId: string, inputs: seq<Input>)
    requires inputs != []
    ensures
      var init, last := inputs[..|inputs| - 1], inputs[|inputs| - 1];
      var m, n := After(appId, init), After(appId, inputs);
      var g, h := History(appId, init), History(appId, inputs);
      if Accepts(m, last.spec) then
        && |h| == |g| + 1 && h[..|g|] == g
        && h[|g|].spec == last.spec && h[|g|].op == OperationOn(m, last.spec)
        && n.components == m.components[KeyOf(last.spec) := last.spec]
        && n.notices == m.notices +
             (if h[|g|].announced then [Notice(CategoryOf(last.spec.typ), h[|g|].op, last.spec)] else [])
      else n == m && h == g
  {
  }

  /** The index holds, under every key, the last accepted spec with that key. */
  lemma {:induction false} IndexIsLast(appId: string, inputs: seq<Input>, k: string)
    ensures
      var m, h := After(appId, inputs), History(appId, inputs);
      var i := LastWithKey(h, k);
      if i >= 0 then k in m.components && m.components[k] == h[i].spec else k !in m.components
    ensures After(appId, inputs).notices == Announced(History(appId, inputs))
  {
    hide Step, Accepts, Instances;
    if inputs != [] {
      IndexIsLast(appId, inputs[..|inputs| - 1], k);
      OneMore(appId, inputs);
      var h := History(appId, inputs);
      assert h != [] ==> h == h[..|h| - 1] + [h[|h| - 1]];
    }
  }

  /** A later accepted spec of another pair took over the pair's key. */
  predicate Shadowed(h: seq<Entry>, typ: string, name: string) {
    var i := LastOfPair(h, typ, name);
    exists j :: i < j < |h| && KeyOf(h[j].spec) == Key(typ, name)
  }

  /**
   * Looking a pair up gives its last accepted spec unless a later spec of another pair has the same
   * key, and then gives nothing.
   */
  lemma LookupIsLastAccepted(appId: string, inputs: seq<Input>, typ: string, name: string)
    ensures
      var h := History(appId, inputs);
      var i := LastOfPair(h, typ, name);
      Lookup(After(appId, inputs).components, typ, name) ==
      if i >= 0 && !Shadowed(h, typ, name) then Some(h[i].spec) else None
  {
    hide After, History, LastOfPair, LastWithKey;
    var h := History(appId, inputs);
    var k := Key(typ, name);
    IndexIsLast(appId, inputs, k);
    var i, l := LastOfPair(h, typ, name), LastWithKey(h, k);
    assert i >= 0 ==> KeyOf(h[i].spec) == k;
  }

  predicate DashFree(inputs: seq<Input>) {
    forall i :: 0 <= i < |inputs| ==> '-' !in inputs[i].spec.typ
  }

  /** Without a dash in the types, the key determines the pair. */
  lemma {:induction false} KeyIsInjective(t1: string, n1: string, t2: string, n2: string)
    requires '-' !in t1 && '-' !in t2 && Key(t1, n1) == Key(t2, n2)
    ensures t1 == t2 && n1 == n2
  {
    var k := Key(t1, n1);
    forall i | 0 <= i < |t1| ensures k[i] != '-' {
      assert k[i] == t1[i] && t1[i] in t1;
    }
    forall i | 0 <= i < |t2| ensures k[i] != '-' {
      assert k[i] == t2[i] && t2[i] in t2;
    }
    assert k[|t1|] == '-' && k[|t2|] == '-';
    assert t1 == k[..|t1|] && t2 == k[..|t2|];
    assert n1 == k[|t1| + 1..] && n2 == k[|t2| + 1..];
  }

  lemma CollidingKeys()
    ensures Key("pubsub.a-b", "c") == Key("pubsub.a", "b-c")
  {
    calc {
      Key("pubsub.a-b", "c");
      "pubsub.a-b-c";
      Key("pubsub.a", "b-c");
    }
  }

  lemma CollidingTypes()
    ensures CategoryOf("pubsub.a-b") == CategoryOf("pubsub.a") == Pubsub
    ensures "pubsub.a-b" != "pubsub.a"
  {
    assert "pubsub.a"[..7] == "pubsub." == "pubsub.a-b"[..7];
    assert "pubsub.a"[0] != "bindings."[0] && "pubsub.a-b"[0] != "bindings."[0];
    assert |"pubsub.a"| != |"pubsub.a-b"|;
  }

  /** With a dash, two pairs can share a key: the second spec takes the first one's place, and the first is not found. */
  lemma DashesCollide(appId: string, version: string)
    ensures
      var a := Spec("c", "pubsub.a-b", version, None);
      var b := Spec("b-c", "pubsub.a", version, None);
      var inputs := [Input(a, ALL_WELL), Input(b, ALL_WELL)];
      && KeyOf(a) == KeyOf(b)
      && |History(appId, inputs)| == 2
      && Lookup(After(appId, inputs).components, a.typ, a.name) == None
      && Lookup(After(appId, inputs).components, b.typ, b.name) == Some(b)
  {
    var a := Input(Spec("c", "pubsub.a-b", version, None), ALL_WELL);
    var b := Input(Spec("b-c", "pubsub.a", version, None), ALL_WELL);
    CollidingKeys();
    CollidingTypes();
    hide CategoryOf, Key;
    var m1 := Step(INIT, appId, a.spec, a.outcome);
    assert [a][..0] == [] && After(appId, [a]) == m1 && |History(appId, [a])| == 1;
    assert m1.components == map[KeyOf(a.spec) := a.spec];
    var m2 := Step(m1, appId, b.spec, b.outcome);
    assert [a, b][..1] == [a] && After(appId, [a, b]) == m2 && |History(appId, [a, b])| == 2;
    assert m2.components == map[KeyOf(a.spec) := b.spec];
  }

  lemma {:induction false} HistoryIsFromInputs(appId: string, inputs: seq<Input>, i: nat)
    requires i < |History(appId, inputs)|
    ensures exists k :: 0 <= k < |inputs| && inputs[k].spec == History(appId, inputs)[i].spec
    ensures CategoryOf(History(appId, inputs)[i].spec.typ) != NoCategory
  {
    var init := inputs[..|inputs| - 1];
    if i < |History(appId, init)| {
      HistoryIsFromInputs(appId, init, i);
      var k :| 0 <= k < |init| && init[k].spec == History(appId, init)[i].spec;
      assert inputs[k] == init[k];
    } else {
      assert inputs[|inputs| - 1].spec == History(appId, inputs)[i].spec;
    }
  }

  lemma NothingShadowed(appId: string, inputs: seq<Input>, typ: string, name: string)
    requires DashFree(inputs) && '-' !in typ
    ensures !Shadowed(History(appId, inputs), typ, name)
  {
    var h := History(appId, inputs);
    forall j | LastOfPair(h, typ, name) < j < |h| ensures KeyOf(h[j].spec) != Key(typ, name) {
      HistoryIsFromInputs(appId, inputs, j);
      if KeyOf(h[j].spec) == Key(typ, name) {
        KeyIsInjective(h[j].spec.typ, h[j].spec.name, typ, name);
      }
    }
  }

  lemma {:induction false} EntryOperation(appId: string, inputs: seq<Input>, i: nat)
    requires DashFree(inputs) && i < |History(appId, inputs)|
    ensures
      var h := History(appId, inputs);
      h[i].op == Insert <==> forall j :: 0 <= j < i ==> !SamePair(h[j].spec, h[i].spec)
  {
    var init := inputs[..|inputs| - 1];
    var h, g := History(appId, inputs), History(appId, init);
    assert g <= h;
    if i < |g| {
      EntryOperation(appId, init, i);
    } else {
      var s := inputs[|inputs| - 1].spec;
      NothingShadowed(appId, init, s.typ, s.name);
      LookupIsLastAccepted(appId, init, s.typ, s.name);
    }
  }

  /**
   * The index and notification protocol for types without a dash: a pair is looked up as its last
   * accepted spec, the first accepted spec of a pair is an insert and every later one an update.
   * Notifications are the announced entries, in order.
   */
  lemma {:induction false} IndexProtocol(appId: string, inputs: seq<Input>, i: nat)
    requires DashFree(inputs) && i < |History(appId, inputs)|
    ensures
      var m, h := After(appId, inputs), History(appId, inputs);
      var s := h[i].spec;
      && Lookup(m.components, s.typ, s.name) == Some(h[LastOfPair(h, s.typ, s.name)].spec)
      && (h[i].op == Insert <==> forall j :: 0 <= j < i ==> !SamePair(h[j].spec, s))
      && m.notices == Announced(h)
  {
    var h := History(appId, inputs);
    var s := h[i].spec;
    HistoryIsFromInputs(appId, inputs, i);
    NothingShadowed(appId, inputs, s.typ, s.name);
    LookupIsLastAccepted(appId, inputs, s.typ, s.name);
    IndexIsLast(appId, inputs, "");
    assert SamePair(h[i].spec, s);
    EntryOperation(appId, inputs, i);
  }

  /** The entry behind a notification. */
  lemma {:induction false} NoticeAt(h: seq<Entry>, i: nat) returns (k: nat)
    requires i < |Announced(h)|
    ensures k < |h| && Announced(h)[i].spec == h[k].spec && Announced(h)[i].op == h[k].op && h[k].announced
    ensures Announced(h)[i].category == CategoryOf(h[k].spec.typ)
  {
    var n := |h| - 1;
    if i < |Announced(h[..n])| {
      k := NoticeAt(h[..n], i);
    } else {
      k := n;
    }
  }

  /** Notifications come in the order of their entries. */
  lemma {:induction false} NoticesInOrder(h: seq<Entry>, i: nat, j: nat) returns (k: nat, l: nat)
    requires i < j < |Announced(h)|
    ensures k < l < |h|
    ensures Announced(h)[i].spec == h[k].spec && Announced(h)[j].spec == h[l].spec && Announced(h)[j].op == h[l].op
  {
    var n := |h| - 1;
    if j < |Announced(h[..n])| {
      k, l := NoticesInOrder(h[..n], i, j);
    } else {
      k := NoticeAt(h[..n], i);
      l := n;
    }
  }

  /** Only the first notification of a pair can be an Insert: every later one is an Update. */
  lemma InsertThenUpdates(appId: string, inputs: seq<Input>, i: nat, j: nat)
    requires DashFree(inputs) && i < j < |After(appId, inputs).notices|
    requires SamePair(After(appId, inputs).notices[i].spec, After(appId, inputs).notices[j].spec)
    ensures After(appId, inputs).notices[j].op == Update
  {
    hide After, History, Announced;
    IndexIsLast(appId, inputs, "");
    var k, l := NoticesInOrder(History(appId, inputs), i, j);
    EntryOperation(appId, inputs, l);
  }

  /** Sending a spec again, with its metadata unchanged, changes nothing at all. */
  lemma ResendChangesNothing(m: State, appId: string, spec: Spec, o: Outcome, again: Spec, p: Outcome)
    requires SamePair(spec, again) && spec.metadata == again.metadata
    ensures Step(Step(m, appId, spec, o), appId, again, p) == Step(m, appId, spec, o)
  {
  }

  // ---------------------------------------------------------------------------------------------
  // Instances, while every call into them succeeds

  predicate Succeeding(inputs: seq<Input>) {
    forall i :: 0 <= i < |inputs| ==> inputs[i].outcome == ALL_WELL
  }

  predicate IsPubSub(s: Spec) {
    CategoryOf(s.typ) == Pubsub
  }

  /** The number of pub/sub instances ever created. */
  function MadeFor(h: seq<Entry>): nat {
    if h == [] then 0 else MadeFor(h[..|h| - 1]) + (if IsPubSub(h[|h| - 1].spec) then 1 else 0)
  }

  /** The instance made for the latest accepted pub/sub spec of a name. */
  function LiveId(h: seq<Entry>, name: string): Option<nat> {
    if h == [] then None
    else
      var init, s := h[..|h| - 1], h[|h| - 1].spec;
      if IsPubSub(s) && s.name == name then Some(MadeFor(init)) else LiveId(init, name)
  }

  /**
   * The life of a name's instances: each is created for an accepted spec and initialised once with
   * that spec's metadata and the app id; its predecessor was closed once, before it was created.
   */
  function Lifecycle(appId: string, h: seq<Entry>, name: string): seq<InstanceEvent> {
    if h == [] then []
    else
      var init, s := h[..|h| - 1], h[|h| - 1].spec;
      var before := Lifecycle(appId, init, name);
      if IsPubSub(s) && s.name == name then
        before + (if LiveId(init, name).Some? then [Closed(name, LiveId(init, name).value)] else []) +
        [Created(name, MadeFor(init), s.typ, s.version),
         Initialised(name, MadeFor(init), InstanceProperties(s.metadata, appId))]
      else before
  }

  /** The events of one name, in order. */
  function OfName(log: seq<InstanceEvent>, name: string): seq<InstanceEvent> {
    if log == [] then []
    else OfName(log[..|log| - 1], name) + (if log[|log| - 1].name == name then [log[|log| - 1]] else [])
  }

  /** An insert meets a live instance of the same name: nobody closes that instance. */
  predicate Overwrites(m: State, s: Spec) {
    Accepts(m, s) && IsPubSub(s) && OperationOn(m, s) == Insert && s.name in m.instances
  }

  function OverwriteCount(appId: string, inputs: seq<Input>): nat {
    if inputs == [] then 0
    else
      var init := inputs[..|inputs| - 1];
      OverwriteCount(appId, init) +
      (if Overwrites(After(appId, init), inputs[|inputs| - 1].spec) then 1 else 0)
  }

  function ClosedCount(log: seq<InstanceEvent>): nat {
    if log == [] then 0 else ClosedCount(log[..|log| - 1]) + (if log[|log| - 1].Closed? then 1 else 0)
  }

  lemma {:induction false} OfNameConcat(a: seq<InstanceEvent>, b: seq<InstanceEvent>, name: string)
    ensures OfName(a + b, name) == OfName(a, name) + OfName(b, name)
    ensures ClosedCount(a + b) == ClosedCount(a) + ClosedCount(b)
  {
    if b == [] {
      assert a + b == a;
    } else {
      assert (a + b)[..|a + b| - 1] == a + b[..|b| - 1];
      OfNameConcat(a, b[..|b| - 1], name);
    }
  }

  /** What one succeeding update does to the log and the table. */
  lemma SuccessStep(m: State, appId: string, s: Spec)
    requires Accepts(m, s)
    ensures
      var n := Step(m, appId, s, ALL_WELL);
      if !IsPubSub(s) then n.log == m.log && n.instances == m.instances && n.made == m.made
      else
        var closing := if OperationOn(m, s) == Update && s.name in m.instances
                       then [Closed(s.name, m.instances[s.name])] else [];
        && n.log == m.log + (closing + [Created(s.name, m.made, s.typ, s.version),
                                        Initialised(s.name, m.made, InstanceProperties(s.metadata, appId))])
        && n.instances == m.instances[s.name := m.made] && n.made == m.made + 1
  {
  }

  lemma EventsOfOneName(s: Spec, closing: seq<InstanceEvent>, id: nat, properties: map<string, string>, name: string)
    requires |closing| <= 1 && forall e :: e in closing ==> e.Closed? && e.name == s.name
    ensures
      var events := closing + [Created(s.name, id, s.typ, s.version), Initialised(s.name, id, properties)];
      OfName(events, name) == (if s.name == name then events else []) && ClosedCount(events) == |closing|
  {
    var tail := [Created(s.name, id, s.typ, s.version), Initialised(s.name, id, properties)];
    OfNameConcat(closing, tail, name);
    assert tail[..1] == [tail[0]] && tail[..1][..0] == [];
    if closing != [] {
      assert closing[..0] == [] && closing[0] in closing;
    }
  }

  lemma SuccessIndex(m: State, appId: string, s: Spec)
    requires Accepts(m, s)
    ensures Step(m, appId, s, ALL_WELL).components == m.components[KeyOf(s) := s]
  {
  }

  lemma InstanceCount(instances: map<string, nat>, name: string, id: nat)
    ensures |instances[name := id]| == |instances| + (if name in instances then 0 else 1)
  {
    if name in instances {
      assert instances[name := id].Keys == instances.Keys;
    } else {
      assert instances[name := id].Keys == instances.Keys + {name};
    }
  }

  /** An update of a pub/sub finds its instance. */
  lemma UpdateIsLive(m: State, s: Spec)
    requires forall k :: k in m.components && IsPubSub(m.components[k]) ==> m.components[k].name in m.instances
    ensures IsPubSub(s) && OperationOn(m, s) == Update ==> s.name in m.instances
  {
    assert Lookup(m.components, s.typ, s.name).Some? ==> Key(s.typ, s.name) in m.components;
  }

  lemma ConservationStep(m: State, appId: string, s: Spec)
    requires Accepts(m, s)
    requires forall k :: k in m.components && IsPubSub(m.components[k]) ==> m.components[k].name in m.instances
    ensures
      var n := Step(m, appId, s, ALL_WELL);
      && n.made - m.made == ClosedCount(n.log) - ClosedCount(m.log) + |n.instances| - |m.instances|
                            + (if Overwrites(m, s) then 1 else 0)
      && forall k :: k in n.components && IsPubSub(n.components[k]) ==> n.components[k].name in n.instances
  {
    hide Step, Accepts, CategoryOf, ClosedCount;
    var n := Step(m, appId, s, ALL_WELL);
    SuccessStep(m, appId, s);
    SuccessIndex(m, appId, s);
    if IsPubSub(s) {
      var closing := if OperationOn(m, s) == Update && s.name in m.instances
                     then [Closed(s.name, m.instances[s.name])] else [];
      var tail := [Created(s.name, m.made, s.typ, s.version),
                   Initialised(s.name, m.made, InstanceProperties(s.metadata, appId))];
      EventsOfOneName(s, closing, m.made, InstanceProperties(s.metadata, appId), s.name);
      OfNameConcat(m.log, closing + tail, s.name);
      InstanceCount(m.instances, s.name, m.made);
      UpdateIsLive(m, s);
    }
  }

  /** Created instances are closed, live or overwritten. */
  lemma {:induction false} Conservation(appId: string, inputs: seq<Input>)
    requires Succeeding(inputs)
    ensures
      var m := After(appId, inputs);
      m.made == ClosedCount(m.log) + |m.instances| + OverwriteCount(appId, inputs)
    ensures
      var m := After(appId, inputs);
      forall k :: k in m.components && IsPubSub(m.components[k]) ==> m.components[k].name in m.instances
  {
    if inputs != [] {
      var init, s := inputs[..|inputs| - 1], inputs[|inputs| - 1].spec;
      Conservation(appId, init);
      var m := After(appId, init);
      if Accepts(m, s) {
        SuccessStep(m, appId, s);
        ConservationStep(m, appId, s);
      }
    }
  }

  /** Pub/sub specs of one name have one type. */
  predicate NamesUnique(inputs: seq<Input>) {
    forall i, j ::
      (0 <= i < |inputs| && 0 <= j < |inputs| && IsPubSub(inputs[i].spec) && IsPubSub(inputs[j].spec)
       && inputs[i].spec.name == inputs[j].spec.name) ==> inputs[i].spec.typ == inputs[j].spec.typ
  }

  /** One accepted spec and the events of one name. */
  lemma LifecycleStep(m: State, appId: string, s: Spec, name: string)
    requires Accepts(m, s) && !Overwrites(m, s)
    requires forall k :: k in m.components && IsPubSub(m.components[k]) ==> m.components[k].name in m.instances
    ensures
      var n := Step(m, appId, s, ALL_WELL);
      if IsPubSub(s) && s.name == name then
        var closing := if name in m.instances then [Closed(name, m.instances[name])] else [];
        && OfName(n.log, name) == OfName(m.log, name) + closing +
             [Created(name, m.made, s.typ, s.version), Initialised(name, m.made, InstanceProperties(s.metadata, appId))]
        && n.instances == m.instances[name := m.made] && n.made == m.made + 1
      else
        && OfName(n.log, name) == OfName(m.log, name)
        && (name in n.instances <==> name in m.instances) && (name in m.instances ==> n.instances[name] == m.instances[name])
        && n.made == m.made + (if IsPubSub(s) then 1 else 0)
  {
    hide Step, Accepts, CategoryOf, OfName;
    SuccessStep(m, appId, s);
    if IsPubSub(s) {
      UpdateIsLive(m, s);
      var closing := if OperationOn(m, s) == Update && s.name in m.instances
                     then [Closed(s.name, m.instances[s.name])] else [];
      var tail := [Created(s.name, m.made, s.typ, s.version),
                   Initialised(s.name, m.made, InstanceProperties(s.metadata, appId))];
      EventsOfOneName(s, closing, m.made, InstanceProperties(s.metadata, appId), name);
      OfNameConcat(m.log, closing + tail, name);
      assert OfName(m.log, name) + (closing + tail) == OfName(m.log, name) + closing + tail;
      assert OfName(m.log, name) + [] == OfName(m.log, name);
    }
  }

  /** The instance table and the log follow the accepted specs, as long as nothing is overwritten. */
  lemma {:induction false} InstanceLifecycle(appId: string, inputs: seq<Input>, name: string)
    requires Succeeding(inputs) && OverwriteCount(appId, inputs) == 0
    ensures
      var m, h := After(appId, inputs), History(appId, inputs);
      && OfName(m.log, name) == Lifecycle(appId, h, name)
      && m.made == MadeFor(h)
      && (name in m.instances <==> LiveId(h, name).Some?)
      && (name in m.instances ==> m.instances[name] == LiveId(h, name).value)
  {
    hide Step, Accepts, CategoryOf, IsPubSub, Instances, Overwrites;
    if inputs != [] {
      var init, s := inputs[..|inputs| - 1], inputs[|inputs| - 1].spec;
      InstanceLifecycle(appId, init, name);
      Conservation(appId, init);
      OneMore(appId, inputs);
      if Accepts(After(appId, init), s) {
        assert inputs[|inputs| - 1].outcome == ALL_WELL;
        LifecycleStep(After(appId, init), appId, s, name);
      }
    }
  }

  lemma {:induction false} LiveIsAccepted(h: seq<Entry>, name: string) returns (i: nat)
    requires LiveId(h, name).Some?
    ensures i < |h| && IsPubSub(h[i].spec) && h[i].spec.name == name
  {
    var last := h[|h| - 1].spec;
    if IsPubSub(last) && last.name == name {
      i := |h| - 1;
    } else {
      i := LiveIsAccepted(h[..|h| - 1], name);
    }
  }

  lemma LiveNameIsIndexed(appId: string, inputs: seq<Input>)
    requires inputs != [] && Succeeding(inputs) && NamesUnique(inputs) && DashFree(inputs)
    requires OverwriteCount(appId, inputs[..|inputs| - 1]) == 0
    ensures !Overwrites(After(appId, inputs[..|inputs| - 1]), inputs[|inputs| - 1].spec)
  {
    hide After, History, CategoryOf;
    var init, s := inputs[..|inputs| - 1], inputs[|inputs| - 1].spec;
    var m, h := After(appId, init), History(appId, init);
    InstanceLifecycle(appId, init, s.name);
    if IsPubSub(s) && s.name in m.instances {
      var i := LiveIsAccepted(h, s.name);
      HistoryIsFromInputs(appId, init, i);
      var k :| 0 <= k < |init| && init[k].spec == h[i].spec;
      assert inputs[k] == init[k];
      assert h[i].spec.typ == s.typ;
      NothingShadowed(appId, init, s.typ, s.name);
      LookupIsLastAccepted(appId, init, s.typ, s.name);
    }
  }

  /** With one type per pub/sub name and no dash in the types, nothing is ever overwritten. */
  lemma {:induction false} UniqueNamesOverwriteNothing(appId: string, inputs: seq<Input>)
    requires Succeeding(inputs) && NamesUnique(inputs) && DashFree(inputs)
    ensures OverwriteCount(appId, inputs) == 0
  {
    if inputs != [] {
      var init, s := inputs[..|inputs| - 1], inputs[|inputs| - 1].spec;
      UniqueNamesOverwriteNothing(appId, init);
      LiveNameIsIndexed(appId, inputs);
    }
  }

  // ---------------------------------------------------------------------------------------------
  // What a lifecycle means for a single instance

  function Births(log: seq<InstanceEvent>, id: nat): nat {
    if log == [] then 0
    else Births(log[..|log| - 1], id) + (if log[|log| - 1].Created? && log[|log| - 1].id == id then 1 else 0)
  }

  function Deaths(log: seq<InstanceEvent>, id: nat): nat {
    if log == [] then 0
    else Deaths(log[..|log| - 1], id) + (if log[|log| - 1].Closed? && log[|log| - 1].id == id then 1 else 0)
  }

  lemma {:induction false} LivesConcat(a: seq<InstanceEvent>, b: seq<InstanceEvent>, id: nat)
    ensures Births(a + b, id) == Births(a, id) + Births(b, id)
    ensures Deaths(a + b, id) == Deaths(a, id) + Deaths(b, id)
  {
    if b == [] {
      assert a + b == a;
    } else {
      assert (a + b)[..|a + b| - 1] == a + b[..|b| - 1];
      LivesConcat(a, b[..|b| - 1], id);
    }
  }

  lemma LivesOfNothing(id: nat)
    ensures Births([], id) == Deaths([], id) == 0
  {
  }

  lemma LivesOfThree(a: seq<InstanceEvent>, b: seq<InstanceEvent>, c: seq<InstanceEvent>, id: nat)
    ensures Births(a + b + c, id) == Births(a, id) + Births(b, id) + Births(c, id)
    ensures Deaths(a + b + c, id) == Deaths(a, id) + Deaths(b, id) + Deaths(c, id)
  {
    LivesConcat(a, b, id);
    LivesConcat(a + b, c, id);
  }

  lemma SmallLogs(closing: seq<InstanceEvent>, tail: seq<InstanceEvent>, id: nat)
    requires |closing| <= 1 && (forall e :: e in closing ==> e.Closed?)
    requires |tail| == 2 && tail[0].Created? && tail[1].Initialised?
    ensures Births(closing, id) == 0 && Deaths(tail, id) == 0
    ensures Births(tail, id) == if tail[0].id == id then 1 else 0
    ensures Deaths(closing, id) == if closing != [] && closing[0].id == id then 1 else 0
  {
    assert tail == [tail[0]] + [tail[1]];
    LivesConcat([tail[0]], [tail[1]], id);
    if closing != [] {
      assert closing[..0] == [] && closing[0] in closing;
    }
  }

  /** Every instance is created at most once; the live one is not closed, every other is closed once. */
  lemma {:induction false} ClosedExactlyOnce(appId: string, h: seq<Entry>, name: string, id: nat)
    ensures
      var log := Lifecycle(appId, h, name);
      && Births(log, id) <= (if id < MadeFor(h) then 1 else 0)
      && Deaths(log, id) == (if LiveId(h, name) == Some(id) then 0 else Births(log, id))
      && (LiveId(h, name) == Some(id) ==> Births(log, id) == 1)
  {
    hide Births, Deaths, CategoryOf;
    if h == [] {
      LivesOfNothing(id);
    } else {
      var init, s := h[..|h| - 1], h[|h| - 1].spec;
      ClosedExactlyOnce(appId, init, name, id);
      if IsPubSub(s) && s.name == name {
        var before := Lifecycle(appId, init, name);
        var closing := if LiveId(init, name).Some? then [Closed(name, LiveId(init, name).value)] else [];
        var tail := [Created(name, MadeFor(init), s.typ, s.version),
                     Initialised(name, MadeFor(init), InstanceProperties(s.metadata, appId))];
        SmallLogs(closing, tail, id);
        LivesOfThree(before, closing, tail, id);
      }
    }
  }

  /**
   * The instance lifecycle for streams with one type per pub/sub name, no dash in the types and calls
   * that succeed: the log of every name is its lifecycle, and created = closed + live.
   */
  lemma LifecycleOfUniqueNames(appId: string, inputs: seq<Input>, name: string)
    requires Succeeding(inputs) && NamesUnique(inputs) && DashFree(inputs)
    ensures
      var m, h := After(appId, inputs), History(appId, inputs);
      && OfName(m.log, name) == Lifecycle(appId, h, name)
      && (if name in m.instances then LiveId(h, name) == Some(m.instances[name]) else LiveId(h, name) == None)
      && m.made == ClosedCount(m.log) + |m.instances|
  {
    UniqueNamesOverwriteNothing(appId, inputs);
    InstanceLifecycle(appId, inputs, name);
    Conservation(appId, inputs);
  }

  // ---------------------------------------------------------------------------------------------
  // Calls that fail

  /** The table still holds an instance that has been closed. */
  predicate Stale(m: State, name: string) {
    name in m.instances && Closed(name, m.instances[name]) in m.log
  }

  /** Instance numbers are handed out once. */
  ghost predicate IdsBelow(m: State) {
    && (forall e :: e in m.log ==> e.id < m.made)
    && (forall n :: n in m.instances ==> m.instances[n] < m.made)
  }

  lemma IdsStep(m: State, appId: string, s: Spec, o: Outcome)
    requires IdsBelow(m)
    ensures IdsBelow(Step(m, appId, s, o))
  {
    hide Accepts, CategoryOf, OperationOn, InstanceProperties, KeyOf;
  }

  lemma {:induction false} IdsAreBelow(appId: string, inputs: seq<Input>)
    ensures IdsBelow(After(appId, inputs))
  {
    hide Step;
    if inputs != [] {
      var init, last := inputs[..|inputs| - 1], inputs[|inputs| - 1];
      IdsAreBelow(appId, init);
      IdsStep(After(appId, init), appId, last.spec, last.outcome);
    }
  }

  /** One accepted pub/sub spec: when its name is stale afterwards. */
  lemma StaleStep(appId: string, before: seq<Input>, s: Spec, o: Outcome)
    requires Accepts(After(appId, before), s) && IsPubSub(s)
    ensures
      var m := After(appId, before);
      var n := Step(m, appId, s, o);
      var ok := Instances(m, appId, s, o).1;
      && (Stale(n, s.name) <==> !ok && s.name in m.instances && (OperationOn(m, s) == Update || Stale(m, s.name)))
      && (s.name in n.instances <==> ok || s.name in m.instances)
  {
    IdsAreBelow(appId, before);
    hide After, CategoryOf, Accepts, OperationOn;
    var m := After(appId, before);
    var (n, ok) := Instances(m, appId, s, o);
    assert m.log <= n.log;
    assert forall e :: e in m.log ==> e in n.log;
    if !ok && s.name in m.instances && OperationOn(m, s) == Update {
      assert n.log[|m.log|] == Closed(s.name, m.instances[s.name]);
    }
  }

  /** A spec of another name, or of no pub/sub at all, leaves a name as stale as it was. */
  lemma StaleElsewhere(m: State, appId: string, s: Spec, o: Outcome, name: string)
    requires Accepts(m, s) && !(IsPubSub(s) && s.name == name)
    ensures
      var n := Step(m, appId, s, o);
      && (name in n.instances <==> name in m.instances)
      && (Stale(n, name) <==> Stale(m, name))
  {
    hide Accepts, CategoryOf, OperationOn;
    var n := Step(m, appId, s, o);
    assert m.log <= n.log;
    forall e | e in n.log && e !in m.log ensures e.name != name {
      var i :| 0 <= i < |n.log| && n.log[i] == e;
      assert i >= |m.log|;
    }
    assert forall e :: e in m.log ==> e in n.log;
  }

  predicate OfPubSub(e: Entry, name: string) {
    IsPubSub(e.spec) && e.spec.name == name
  }

  /** The last announced pub/sub entry of a name. */
  function LastAnnounced(h: seq<Entry>, name: string): (i: int)
    ensures -1 <= i < |h|
    ensures i >= 0 ==> OfPubSub(h[i], name) && h[i].announced
    ensures forall j :: i < j < |h| ==> !(OfPubSub(h[j], name) && h[j].announced)
  {
    if h == [] then -1
    else if OfPubSub(h[|h| - 1], name) && h[|h| - 1].announced then |h| - 1
    else LastAnnounced(h[..|h| - 1], name)
  }

  /** An update of the name has failed since its last announced entry. */
  predicate FailedUpdateSince(h: seq<Entry>, name: string) {
    LastAnnounced(h, name) >= 0 &&
    exists j :: LastAnnounced(h, name) < j < |h| && OfPubSub(h[j], name) && h[j].op == Update
  }

  lemma OneMoreEntry(g: seq<Entry>, e: Entry, name: string)
    ensures
      var h := g + [e];
      && LastAnnounced(h, name) == (if OfPubSub(e, name) && e.announced then |g| else LastAnnounced(g, name))
      && (FailedUpdateSince(h, name) <==>
            if !OfPubSub(e, name) then FailedUpdateSince(g, name)
            else !e.announced && LastAnnounced(g, name) >= 0 && (e.op == Update || FailedUpdateSince(g, name)))
  {
    hide CategoryOf, OfPubSub;
    var h := g + [e];
    assert h[..|h| - 1] == g;
    var l := LastAnnounced(g, name);
    if FailedUpdateSince(g, name) && !(OfPubSub(e, name) && e.announced) {
      var j :| l < j < |g| && OfPubSub(g[j], name) && g[j].op == Update;
      assert OfPubSub(h[j], name) && h[j].op == Update;
    }
    if OfPubSub(e, name) && !e.announced && l >= 0 && e.op == Update {
      assert OfPubSub(h[|g|], name) && h[|g|].op == Update;
    }
    if FailedUpdateSince(h, name) {
      var j :| LastAnnounced(h, name) < j < |h| && OfPubSub(h[j], name) && h[j].op == Update;
      assert j < |g| ==> OfPubSub(g[j], name) && g[j].op == Update;
    }
  }

  lemma NothingStale(appId: string, name: string)
    ensures After(appId, []) == INIT && History(appId, []) == []
    ensures name !in INIT.instances && !Stale(INIT, name)
    ensures LastAnnounced([], name) == -1 && !FailedUpdateSince([], name)
  {
  }

  lemma NothingHappens(m: State, appId: string, s: Spec, o: Outcome)
    requires !Accepts(m, s)
    ensures Step(m, appId, s, o) == m
  {
  }

  /**
   * Which instances are in the table, and which of them are closed, over whole streams and whatever
   * succeeds or fails: a name has an instance exactly when one of its pub/sub entries was announced,
   * and that instance is closed exactly when an update of the name has come since. That update
   * failed, because it was not announced.
   */
  lemma {:induction false} StaleIff(appId: string, inputs: seq<Input>, name: string)
    ensures
      var m, h := After(appId, inputs), History(appId, inputs);
      && (name in m.instances <==> LastAnnounced(h, name) >= 0)
      && (Stale(m, name) <==> FailedUpdateSince(h, name))
  {
    hide Step, Accepts, CategoryOf, OperationOn, Instances, Stale, FailedUpdateSince, LastAnnounced;
    if inputs == [] {
      NothingStale(appId, name);
    } else {
      var init, last := inputs[..|inputs| - 1], inputs[|inputs| - 1];
      StaleIff(appId, init, name);
      var m, g := After(appId, init), History(appId, init);
      if Accepts(m, last.spec) {
        var e := Entry(last.spec, OperationOn(m, last.spec), last.outcome,
                       Instances(m, appId, last.spec, last.outcome).1);
        OneMoreEntry(g, e, name);
        if OfPubSub(e, name) {
          StaleStep(appId, init, last.spec, last.outcome);
        } else {
          StaleElsewhere(m, appId, last.spec, last.outcome, name);
        }
      } else {
        NothingHappens(m, appId, last.spec, last.outcome);
      }
    }
  }

  /**
   * When an entry is announced: always, unless it is a pub/sub. Then create and init must succeed,
   * and so must the close of the instance that an update finds, which is there exactly when an
   * earlier pub/sub entry of the name was announced.
   */
  lemma {:induction false} AnnouncedIff(appId: string, inputs: seq<Input>, i: nat)
    requires i < |History(appId, inputs)|
    ensures
      var h := History(appId, inputs);
      var e := h[i];
      e.announced <==>
        (IsPubSub(e.spec) ==>
           && e.outcome.createOk && e.outcome.initOk
           && (e.op == Update && LastAnnounced(h[..i], e.spec.name) >= 0 ==> e.outcome.closeOk))
  {
    var init, last := inputs[..|inputs| - 1], inputs[|inputs| - 1];
    var g, h := History(appId, init), History(appId, inputs);
    hide Step, After, Accepts, OperationOn, CategoryOf, LastAnnounced;
    assert g <= h;
    assert h[..|g|] == g;
    if i < |g| {
      AnnouncedIff(appId, init, i);
      assert h[..i] == g[..i];
    } else {
      StaleIff(appId, init, last.spec.name);
    }
  }

  /** The next accepted update of such a name closes the closed instance a second time. */
  lemma StaleIsClosedAgain(m: State, appId: string, s: Spec, o: Outcome)
    requires Accepts(m, s) && IsPubSub(s) && OperationOn(m, s) == Update && Stale(m, s.name)
    ensures multiset(Step(m, appId, s, o).log)[Closed(s.name, m.instances[s.name])] >= 2
  {
    var c := Closed(s.name, m.instances[s.name]);
    var n := Step(m, appId, s, o);
    assert m.log + [c] <= n.log;
    assert n.log == m.log + [c] + n.log[|m.log| + 1..];
    assert multiset(m.log)[c] >= 1;
  }

  lemma PubSubType()
    ensures CategoryOf("pubsub.x") == Pubsub
  {
    assert "pubsub.x"[..7] == "pubsub.";
    assert "pubsub.x"[0] != "bindings."[0];
  }

  lemma Extended(appId: string, inputs: seq<Input>, x: Input)
    ensures After(appId, inputs + [x]) == Step(After(appId, inputs), appId, x.spec, x.outcome)
  {
    assert (inputs + [x])[..|inputs|] == inputs;
  }

  /** An update whose create fails has closed the old instance and leaves it in the table. */
  lemma FailingUpdate(m: State, appId: string, s: Spec)
    requires Accepts(m, s) && IsPubSub(s) && OperationOn(m, s) == Update && s.name in m.instances
    ensures Step(m, appId, s, Outcome(true, false, true)) ==
            m.(log := m.log + [Closed(s.name, m.instances[s.name])], components := m.components[KeyOf(s) := s])
  {
  }

  lemma AfterNothing(appId: string)
    ensures After(appId, []) == INIT
  {
  }

  /** Two specs are enough for a stale instance, with one failing create; the third closes it a second time. */
  lemma StaleHappens(appId: string, name: string, version: string)
    ensures
      var a := Spec(name, "pubsub.x", version, None);
      var b := Spec(name, "pubsub.x", version, Some(map[]));
      var inputs := [Input(a, ALL_WELL), Input(b, Outcome(true, false, true))];
      var m := After(appId, inputs);
      && Stale(m, name)
      && multiset(After(appId, inputs + [Input(a, ALL_WELL)]).log)[Closed(name, m.instances[name])] >= 2
  {
    PubSubType();
    hide CategoryOf, Key, After, Step;
    var a := Input(Spec(name, "pubsub.x", version, None), ALL_WELL);
    var b := Input(Spec(name, "pubsub.x", version, Some(map[])), Outcome(true, false, true));
    AfterNothing(appId);
    Extended(appId, [], a);
    Extended(appId, [a], b);
    Extended(appId, [a, b], a);
    assert [] + [a] == [a] && [a] + [b] == [a, b];
    var m1, m2 := After(appId, [a]), After(appId, [a, b]);
    SuccessStep(INIT, appId, a.spec);
    SuccessIndex(INIT, appId, a.spec);
    assert m1.instances == map[name := 0];
    FailingUpdate(m1, appId, b.spec);
    assert m2.log[|m1.log|] == Closed(name, 0);
    StaleIsClosedAgain(m2, appId, a.spec, ALL_WELL);
  }
}
