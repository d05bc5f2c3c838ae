/**
 * What a stream of specs does to the pub/sub instances of the components manager, whatever succeeds or
 * fails: what they are initialised with, how many there are, which one is in the table, and which specs
 * are accepted in the first place.
 */
module InstanceHistory {
  import opened Wrappers
  import opened Component

  // ---------------------------------------------------------------------------------------------
  // Which specs are accepted

  function NameOf(c: Category): string
    requires c != NoCategory
  {
    match c
    case Bindings => "bindings"
    case Pubsub => "pubsub"
    case SecretStores => "secretstores"
    case Middleware => "middleware"
  }

  lemma FirstLetters()
    ensures "bindings."[0] == 'b' && "pubsub."[0] == 'p' && "secretstores."[0] == 's' && "middleware."[0] == 'm'
    ensures "bindings" + "." == "bindings." && "pubsub" + "." == "pubsub."
    ensures "secretstores" + "." == "secretstores." && "middleware" + "." == "middleware."
  {
  }

  /** A type has the category whose name stands before its first dot; a name with anything else behind it has none. */
  lemma CategoryIff(typ: string, c: Category)
    requires c != NoCategory
    ensures CategoryOf(typ) == c <==> exists rest :: typ == NameOf(c) + "." + rest
  {
    FirstLetters();
    var prefix := NameOf(c) + ".";
    if CategoryOf(typ) == c {
      assert typ == prefix + typ[|prefix|..];
    }
    if rest :| typ == NameOf(c) + "." + rest {
      assert prefix <= typ && typ[0] == prefix[0];
    }
  }

  /**
   * A spec is accepted exactly when its type has a category and its pair is either not found or was
   * last accepted with other metadata. A pair is found when it has been accepted and its key not
   * been taken over since.
   */
  lemma AcceptedIff(appId: string, inputs: seq<Input>)
    requires inputs != []
    ensures
      var init, s := inputs[..|inputs| - 1], inputs[|inputs| - 1].spec;
      var g, h := History(appId, init), History(appId, inputs);
      var i := LastOfPair(g, s.typ, s.name);
      if CategoryOf(s.typ) != NoCategory && (i < 0 || Shadowed(g, s.typ, s.name) || g[i].spec.metadata != s.metadata)
      then |h| == |g| + 1 && h[..|g|] == g && h[|g|].spec == s && h[|g|].outcome == inputs[|inputs| - 1].outcome
      else h == g
  {
    var init, last := inputs[..|inputs| - 1], inputs[|inputs| - 1];
    LookupIsLastAccepted(appId, init, last.spec.typ, last.spec.name);
    hide After, CategoryOf, Lookup, Shadowed, LastOfPair;
    assert Unchanged(After(appId, init), last.spec) <==>
           Lookup(After(appId, init).components, last.spec.typ, last.spec.name).Some?
           && Lookup(After(appId, init).components, last.spec.typ, last.spec.name).value.metadata == last.spec.metadata;
  }

  // ---------------------------------------------------------------------------------------------
  // What one accepted spec does to the log

  /** The instance that an update of this spec closes. */
  predicate Closes(m: State, s: Spec) {
    OperationOn(m, s) == Update && s.name in m.instances
  }

  /** The calls for one accepted pub/sub spec, in order, up to the first that fails. */
  lemma StepEvents(m: State, appId: string, s: Spec, o: Outcome)
    requires Accepts(m, s)
    ensures
      var n := Step(m, appId, s, o);
      var closing := if IsPubSub(s) && Closes(m, s) then [Closed(s.name, m.instances[s.name])] else [];
      var created := IsPubSub(s) && (Closes(m, s) ==> o.closeOk) && o.createOk;
      && (created ==>
            && n.log == m.log + closing +
                 [Created(s.name, m.made, s.typ, s.version),
                  Initialised(s.name, m.made, InstanceProperties(s.metadata, appId))]
            && n.made == m.made + 1)
      && (!created ==> n.log == m.log + closing && n.made == m.made)
      && n.instances == if created && o.initOk then m.instances[s.name := m.made] else m.instances
  {
    hide CategoryOf, OperationOn, InstanceProperties, Accepts;
    var n := Step(m, appId, s, o);
    assert m.log + [] == m.log;
    if IsPubSub(s) && Closes(m, s) {
      var c := [Closed(s.name, m.instances[s.name])];
      var tail := [Created(s.name, m.made, s.typ, s.version),
                   Initialised(s.name, m.made, InstanceProperties(s.metadata, appId))];
      assert m.log + c + tail == (m.log + c) + tail;
    }
  }

  // ---------------------------------------------------------------------------------------------
  // What instances are initialised with

  /** The properties are the metadata of a spec, with the app id as consumer. */
  ghost predicate PropertiesOf(properties: map<string, string>, metadata: Metadata, appId: string) {
    && "consumerID" in properties && properties["consumerID"] == appId
    && forall k :: k != "consumerID" ==>
         && (k in properties <==> metadata.Some? && k in metadata.value)
         && (k in properties && metadata.Some? && k in metadata.value ==> properties[k] == metadata.value[k])
  }

  lemma ConsumerIsApp(metadata: Metadata, appId: string)
    ensures PropertiesOf(InstanceProperties(metadata, appId), metadata, appId)
  {
  }

  /** The event initialises the instance created right before it, for the pub/sub spec of this entry. */
  ghost predicate InitialisedFor(log: seq<InstanceEvent>, i: nat, e: Entry, appId: string)
    requires i < |log|
  {
    && log[i].Initialised? && i > 0
    && OfPubSub(e, log[i].name) && PropertiesOf(log[i].properties, e.spec.metadata, appId)
    && log[i - 1] == Created(log[i].name, log[i].id, e.spec.typ, e.spec.version)
  }

  /**
   * Over all streams and outcomes, every instance is initialised with the app id as consumerID and for
   * the rest with the metadata of an accepted spec of its name, right after it was created with that
   * spec's type and version.
   */
  lemma {:induction false} InitialisedWithConsumer(appId: string, inputs: seq<Input>, i: nat)
    requires i < |After(appId, inputs).log| && After(appId, inputs).log[i].Initialised?
    ensures exists j :: 0 <= j < |History(appId, inputs)|
                        && InitialisedFor(After(appId, inputs).log, i, History(appId, inputs)[j], appId)
  {
    hide Step, Accepts, CategoryOf, OperationOn, Instances, InstanceProperties, PropertiesOf;
    var init, last := inputs[..|inputs| - 1], inputs[|inputs| - 1];
    var m, g := After(appId, init), History(appId, init);
    var log, h := After(appId, inputs).log, History(appId, inputs);
    OneMore(appId, inputs);
    if Accepts(m, last.spec) {
      StepEvents(m, appId, last.spec, last.outcome);
      ConsumerIsApp(last.spec.metadata, appId);
      assert m.log <= log;
    }
    if i < |m.log| {
      InitialisedWithConsumer(appId, init, i);
      var j :| 0 <= j < |g| && InitialisedFor(m.log, i, g[j], appId);
      assert h[j] == g[j];
      assert InitialisedFor(log, i, h[j], appId);
    } else {
      assert InitialisedFor(log, i, h[|g|], appId);
    }
  }

  // ---------------------------------------------------------------------------------------------
  // How many instances there are, and which one is in the table

  /** An update of a name that has an instance: the instance is closed. */
  predicate ClosesAt(h: seq<Entry>, i: nat)
    requires i < |h|
  {
    IsPubSub(h[i].spec) && h[i].op == Update && LastAnnounced(h[..i], h[i].spec.name) >= 0
  }

  /** A new instance is created: nothing before failed. */
  predicate CreatesAt(h: seq<Entry>, i: nat)
    requires i < |h|
  {
    IsPubSub(h[i].spec) && h[i].outcome.createOk && (ClosesAt(h, i) ==> h[i].outcome.closeOk)
  }

  function Closings(h: seq<Entry>): nat {
    if h == [] then 0 else Closings(h[..|h| - 1]) + (if ClosesAt(h, |h| - 1) then 1 else 0)
  }

  function Creations(h: seq<Entry>): nat {
    if h == [] then 0 else Creations(h[..|h| - 1]) + (if CreatesAt(h, |h| - 1) then 1 else 0)
  }

  lemma NoneClosed()
    ensures ClosedCount([]) == 0
  {
  }

  lemma ClosedMore(log: seq<InstanceEvent>, s: Spec, before: nat, id: nat, properties: map<string, string>)
    ensures
      var c, tail := [Closed(s.name, before)], [Created(s.name, id, s.typ, s.version), Initialised(s.name, id, properties)];
      && ClosedCount(log + []) == ClosedCount(log) && ClosedCount(log + c) == ClosedCount(log) + 1
      && ClosedCount(log + [] + tail) == ClosedCount(log) && ClosedCount(log + c + tail) == ClosedCount(log) + 1
  {
    var c, tail := [Closed(s.name, before)], [Created(s.name, id, s.typ, s.version), Initialised(s.name, id, properties)];
    assert log + [] == log;
    OfNameConcat(log, c, s.name);
    OfNameConcat(log, tail, s.name);
    OfNameConcat(log + c, tail, s.name);
    EventsOfOneName(s, [], id, properties, s.name);
    assert [] + tail == tail;
  }

  lemma AnnouncedWhen(m: State, appId: string, s: Spec, o: Outcome)
    ensures IsPubSub(s) ==>
              (Instances(m, appId, s, o).1 <==> (Closes(m, s) ==> o.closeOk) && o.createOk && o.initOk)
  {
  }

  /** Created, closed and live instances over whole streams, whatever succeeds or fails. */
  lemma {:induction false} InstancesFollowHistory(appId: string, inputs: seq<Input>, name: string)
    ensures
      var m, h := After(appId, inputs), History(appId, inputs);
      && m.made == Creations(h) && ClosedCount(m.log) == Closings(h)
      && (name in m.instances <==> LastAnnounced(h, name) >= 0)
      && (name in m.instances ==> m.instances[name] == Creations(h[..LastAnnounced(h, name)]))
  {
    hide Step, Accepts, CategoryOf, OperationOn, Instances, InstanceProperties, LastAnnounced, ClosedCount, IsPubSub;
    if inputs == [] {
      NothingStale(appId, name);
      NoneClosed();
    } else {
      var init, last := inputs[..|inputs| - 1], inputs[|inputs| - 1];
      var m, g := After(appId, init), History(appId, init);
      InstancesFollowHistory(appId, init, name);
      StaleIff(appId, inputs, name);
      StaleIff(appId, init, last.spec.name);
      if Accepts(m, last.spec) {
        var e := Entry(last.spec, OperationOn(m, last.spec), last.outcome,
                       Instances(m, appId, last.spec, last.outcome).1);
        OneMoreEntry(g, e, name);
        StepEvents(m, appId, last.spec, last.outcome);
        ClosedMore(m.log, last.spec, if last.spec.name in m.instances then m.instances[last.spec.name] else 0,
                   m.made, InstanceProperties(last.spec.metadata, appId));
        AnnouncedWhen(m, appId, last.spec, last.outcome);
        assert (g + [e])[..|g|] == g;
        var l := LastAnnounced(g, name);
        assert l >= 0 ==> (g + [e])[..l] == g[..l];
      } else {
        NothingHappens(m, appId, last.spec, last.outcome);
      }
    }
  }
}
