/**
 * What the events of a run say about the watcher of WatcherSteps and its listeners: what is stored,
 * who is registered since when, which objects a stream forwards, and that everything on its way can
 * arrive as long as the registered streams read.
 */
module WatcherHistory {
  import opened WatcherSteps

  lemma {:induction false} LastStep(s: State, es: seq<Event>, t: State) returns (u: State)
    requires es != [] && Run(s, es, t)
    ensures
      var init, e := es[..|es| - 1], es[|es| - 1];
      && Run(s, init, u) && Enabled(u, e) && t == Step(u, e)
      && es == init + [e] && forall x :: x in es <==> x in init || x == e
    decreases |es|
  {
    if |es| == 1 {
      u := s;
    } else {
      u := LastStep(Step(s, es[0]), es[1..], t);
      assert es[..|es| - 1][1..] == es[1..][..|es| - 2];
    }
  }

  // ---------------------------------------------------------------------------------------------
  // What is stored

  /** The objects of the update calls, in order. */
  function Stored(es: seq<Event>): seq<Object> {
    if es == [] then []
    else
      var e := es[|es| - 1];
      Stored(es[..|es| - 1]) + (if e.Store? then [e.obj] else [])
  }

  lemma {:induction false} LogIsEvents(es: seq<Event>, s: State)
    requires Run(INIT, es, s)
    ensures s.log == Stored(es)
    decreases |es|
  {
    if es != [] {
      var u := LastStep(INIT, es, s);
      LogIsEvents(es[..|es| - 1], u);
    }
  }

  /** The i-th update is the last one of its kind and UID. */
  predicate IsLast(log: seq<Object>, i: nat) {
    i < |log| && forall j :: i < j < |log| ==> !(log[j].kind == log[i].kind && log[j].uid == log[i].uid)
  }

  lemma CurrentStep(s: State, e: Event, item: Item)
    requires Enabled(s, e)
    requires Current(s, item) <==> IsLast(s.log, item.call) && item.obj == s.log[item.call]
    ensures
      var t := Step(s, e);
      Current(t, item) <==> IsLast(t.log, item.call) && item.obj == t.log[item.call]
  {
    if e.Store? && item.call < |s.log| {
      var t := Step(s, e);
      assert t.log[|s.log|] == e.obj;
      assert forall j :: 0 <= j < |s.log| ==> t.log[j] == s.log[j];
    }
  }

  /** The current versions are exactly the last updates of each kind and UID. */
  lemma {:induction false} CurrentIsLastStored(es: seq<Event>, s: State, item: Item)
    requires Run(INIT, es, s)
    ensures s.log == Stored(es)
    ensures Current(s, item) <==> IsLast(Stored(es), item.call) && item.obj == Stored(es)[item.call]
    decreases |es|
  {
    LogIsEvents(es, s);
    if es != [] {
      var u := LastStep(INIT, es, s);
      CurrentIsLastStored(es[..|es| - 1], u, item);
      CurrentStep(u, es[|es| - 1], item);
    }
  }

  /** What is stored and not published yet: publishing takes place once. */
  lemma {:induction false} UnpublishedIff(es: seq<Event>, s: State, item: Item)
    requires Run(INIT, es, s)
    ensures item in s.unpublished <==> Genuine(s, item) && Publish(item) !in es
    ensures Publish(item) in es ==> Genuine(s, item)
    decreases |es|
  {
    if es != [] {
      var u := LastStep(INIT, es, s);
      UnpublishedIff(es[..|es| - 1], u, item);
    }
  }

  // ---------------------------------------------------------------------------------------------
  // Who listens

  lemma RegisteredStep(s: State, e: Event, c: nat)
    requires Enabled(s, e)
    ensures Registered(Step(s, e), c) <==> (Registered(s, c) && e != Remove(c)) || (e.Add? && e.c == c)
  {
    if e.Add? || e.Remove? {
      if c in Step(s, e).listeners {
        Listings(s, e, KindOf(Step(s, e).listeners[c].watch), c);
      }
    }
  }

  lemma ListenerStep(s: State, e: Event, c: nat)
    requires Enabled(s, e)
    ensures
      var t := Step(s, e);
      && (c in t.listeners <==> c in s.listeners || (e.Add? && e.c == c))
      && (e.Add? && e.c == c ==> c !in s.listeners && t.listeners[c].watch == e.watch
                                 && t.listeners[c].reading && t.listeners[c].since == |s.log|)
      && (c in s.listeners ==>
            && t.listeners[c].watch == s.listeners[c].watch && t.listeners[c].since == s.listeners[c].since
            && (t.listeners[c].reading <==> s.listeners[c].reading && e != Stop(c)))
      && (e == Stop(c) || e == Remove(c) ==> c in s.listeners)
  {
  }

  /** A listener is what it was added as; it reads until it stops and is registered until it is removed. */
  lemma {:induction false} ListenersAreEvents(es: seq<Event>, s: State, c: nat, w: Watch)
    requires Run(INIT, es, s)
    ensures Add(c, w) in es <==> c in s.listeners && s.listeners[c].watch == w
    ensures c in s.listeners ==> (s.listeners[c].reading <==> Stop(c) !in es)
    ensures c in s.listeners ==> (Registered(s, c) <==> Remove(c) !in es)
    ensures c !in s.listeners ==> Stop(c) !in es && Remove(c) !in es
    decreases |es|
  {
    hide Step, Enabled, Registered;
    if es != [] {
      var e := es[|es| - 1];
      var u := LastStep(INIT, es, s);
      ListenersAreEvents(es[..|es| - 1], u, c, w);
      RegisteredStep(u, e, c);
      ListenerStep(u, e, c);
    }
  }

  /** A listener is registered since the updates stored before it was added. */
  lemma {:induction false} SinceItWasAdded(es: seq<Event>, s: State, i: nat)
    requires Run(INIT, es, s) && i < |es| && es[i].Add?
    ensures es[i].c in s.listeners && s.listeners[es[i].c].since == |Stored(es[..i])|
    decreases |es|
  {
    hide Step, Enabled, Stored;
    var u := LastStep(INIT, es, s);
    var n := |es| - 1;
    ListenerStep(u, es[n], es[i].c);
    if i == n {
      LogIsEvents(es[..n], u);
    } else {
      assert es[..n][..i] == es[..i] && es[..n][i] == es[i];
      SinceItWasAdded(es[..n], u, i);
    }
  }

  // ---------------------------------------------------------------------------------------------
  // What a stream forwards

  /** Receives of an item from publish goroutines. */
  function Deliveries(es: seq<Event>, c: nat, item: Item): nat {
    if es == [] then 0
    else Deliveries(es[..|es| - 1], c, item) + (if es[|es| - 1] == Deliver(c, item) then 1 else 0)
  }

  lemma {:induction false} PublishedAreDeliveries(es: seq<Event>, s: State, c: nat, item: Item)
    requires Run(INIT, es, s)
    ensures if c in s.listeners then s.listeners[c].published[item] == Deliveries(es, c, item)
            else Deliveries(es, c, item) == 0
    decreases |es|
  {
    if es != [] {
      var u := LastStep(INIT, es, s);
      PublishedAreDeliveries(es[..|es| - 1], u, c, item);
    }
  }

  /**
   * A stream forwards what it receives, as often as it receives it, if it is of the watched kind, in
   * the watched namespace and, for a configuration, of the watched name. It forwards nothing else.
   */
  lemma ForwardsWhatItWatches(es: seq<Event>, s: State, c: nat, item: Item)
    requires Run(INIT, es, s) && c in s.listeners
    ensures
      var l, o := s.listeners[c], item.obj;
      var wanted := match l.watch {
        case WatchComponents(namespace) => o.kind == ComponentKind && o.namespace == namespace
        case WatchConfiguration(namespace, name) =>
          o.kind == ConfigurationKind && o.namespace == namespace && o.name == name
      };
      && l.forwarded[item] == (if wanted then l.published[item] + l.replayed[item] else 0)
      && (item in l.published || item in l.replayed ==> o.kind == if l.watch.WatchComponents? then ComponentKind else ConfigurationKind)
  {
    RunKeepsInv(INIT, es, s);
    assert ItemInv(s, c, item);
  }

  // ---------------------------------------------------------------------------------------------
  // Everything can arrive

  /** Every registered stream is in its receive loop. */
  predicate AllRead(s: State) {
    forall c :: c in s.listeners && Registered(s, c) ==> s.listeners[c].reading
  }

  /** Nothing was stored, nobody came, went or stopped. */
  predicate SameCast(s: State, t: State) {
    && t.store == s.store && t.log == s.log && t.chans == s.chans && t.listeners.Keys == s.listeners.Keys
    && forall c :: c in s.listeners ==>
         t.listeners[c].watch == s.listeners[c].watch && t.listeners[c].reading == s.listeners[c].reading
  }

  lemma SameReaders(s: State, t: State)
    requires SameCast(s, t)
    ensures forall c :: Registered(t, c) <==> Registered(s, c)
    ensures AllRead(s) ==> AllRead(t)
  {
  }

  lemma SameCasts(s: State, t: State, u: State)
    requires SameCast(s, t) && SameCast(t, u)
    ensures SameCast(s, u)
  {
  }

  /** Nothing of another listener has changed. */
  predicate OthersStay(s: State, t: State, c: nat) {
    forall d :: d in s.listeners && d != c ==> d in t.listeners && t.listeners[d] == s.listeners[d]
  }

  lemma TakingKeeps(l: Listener, x: Item)
    ensures x in l.pending ==> TakePublished(l, x).watch == l.watch && TakePublished(l, x).reading == l.reading
    ensures l.replay.Reading? ==> TakeReplayed(l, x).watch == l.watch && TakeReplayed(l, x).reading == l.reading
  {
  }

  lemma OneListener(s: State, c: nat, m: Listener)
    requires c in s.listeners && m.watch == s.listeners[c].watch && m.reading == s.listeners[c].reading
    ensures
      var t := s.(listeners := s.listeners[c := m]);
      SameCast(s, t) && OthersStay(s, t, c)
  {
    assert s.listeners[c := m].Keys == s.listeners.Keys + {c} == s.listeners.Keys;
  }

  lemma CastStep(s: State, e: Event)
    requires Enabled(s, e) && !e.Store? && !e.Add? && !e.Stop? && !e.Remove?
    ensures SameCast(s, Step(s, e))
    ensures !e.Publish? ==> Step(s, e).unpublished == s.unpublished && OthersStay(s, Step(s, e), e.c)
  {
    if e.Publish? {
      hide OthersStay;
    } else {
      hide SameCast, OthersStay, TakePublished, TakeReplayed;
      var l := s.listeners[e.c];
      if e.Deliver? {
        TakingKeeps(l, e.item);
      } else if e.ReplaySend? {
        TakingKeeps(l, s.store[e.key]);
      }
      OneListener(s, e.c, Step(s, e).listeners[e.c]);
      assert Step(s, e) == s.(listeners := s.listeners[e.c := Step(s, e).listeners[e.c]]);
    }
  }

  lemma SameCastItself(s: State)
    ensures SameCast(s, s)
  {
  }

  lemma {:induction false} PublishAll(s: State) returns (es: seq<Event>, t: State)
    requires Inv(s)
    ensures Run(s, es, t) && Inv(t) && SameCast(s, t) && t.unpublished == {}
    decreases |s.unpublished|
  {
    hide Inv, SameCast;
    if s.unpublished == {} {
      es, t := [], s;
      SameCastItself(s);
    } else {
      var item :| item in s.unpublished;
      var u := Step(s, Publish(item));
      StepKeepsInv(s, Publish(item));
      CastStep(s, Publish(item));
      assert u.unpublished == s.unpublished - {item};
      es, t := PublishAll(u);
      SameCasts(s, u, t);
      RunPrepend(s, Publish(item), es, t);
      es := [Publish(item)] + es;
    }
  }

  /** Steps that a running replay still has to take. */
  function ReplaySteps(l: Listener): nat {
    match l.replay
    case Ended => 0
    case Reading(owed) => |owed| + 1
    case Waiting => 0
  }

  /** The next step of a replay. */
  lemma NextOfReplay(s: State, c: nat) returns (e: Event)
    requires Inv(s) && c in s.listeners && s.listeners[c].reading && s.listeners[c].replay != Ended
    ensures Enabled(s, e) && (e.StartReplay? || e.ReplaySend? || e.EndReplay?) && e.c == c
    ensures
      var l, m := s.listeners[c], Step(s, e).listeners[c];
      && !m.replay.Waiting?
      && (l.replay.Reading? ==> ReplaySteps(m) < ReplaySteps(l))
  {
    hide Inv;
    if s.listeners[c].replay.Waiting? {
      e := StartReplay(c);
    } else if s.listeners[c].replay.owed == {} {
      e := EndReplay(c);
    } else {
      var key :| key in s.listeners[c].replay.owed;
      OwedIsStored(s, c, key);
      e := ReplaySend(c, key);
      assert Step(s, e).listeners[c].replay.owed == s.listeners[c].replay.owed - {key};
    }
  }

  lemma OthersStill(s: State, t: State, u: State, c: nat)
    requires OthersStay(s, t, c) && OthersStay(t, u, c)
    ensures OthersStay(s, u, c)
  {
  }

  lemma StillReading(s: State, t: State, c: nat)
    requires SameCast(s, t) && c in s.listeners
    ensures c in t.listeners && t.listeners[c].reading == s.listeners[c].reading
  {
  }

  lemma OthersStayThemselves(s: State, c: nat)
    ensures OthersStay(s, s, c)
  {
  }

  /** One replay, started if need be, is run to its end. */
  lemma {:induction false} Replay(s: State, c: nat) returns (es: seq<Event>, t: State)
    requires Inv(s) && c in s.listeners && s.listeners[c].reading
    ensures Run(s, es, t) && Inv(t) && SameCast(s, t) && t.unpublished == s.unpublished
    ensures c in t.listeners && t.listeners[c].replay == Ended && OthersStay(s, t, c)
    decreases s.listeners[c].replay.Waiting?, ReplaySteps(s.listeners[c])
  {
    hide Inv, SameCast, OthersStay, ReplaySteps, Step, Enabled;
    if s.listeners[c].replay == Ended {
      es, t := [], s;
      SameCastItself(s);
      OthersStayThemselves(s, c);
    } else {
      var e := NextOfReplay(s, c);
      var u := Step(s, e);
      StepKeepsInv(s, e);
      CastStep(s, e);
      StillReading(s, u, c);
      es, t := Replay(u, c);
      SameCasts(s, u, t);
      OthersStill(s, u, t, c);
      RunPrepend(s, e, es, t);
      es := [e] + es;
    }
  }

  function OpenReplays(s: State): set<nat> {
    set c | c in s.listeners && Registered(s, c) && s.listeners[c].replay != Ended
  }

  lemma OneReplayLess(s: State, t: State, c: nat)
    requires SameCast(s, t) && OthersStay(s, t, c) && c in t.listeners && t.listeners[c].replay == Ended
    ensures OpenReplays(t) == OpenReplays(s) - {c}
  {
    SameReaders(s, t);
    hide Registered;
  }

  lemma RunNothing(s: State)
    ensures Run(s, [], s)
  {
  }

  lemma {:induction false} ReplayAll(s: State) returns (es: seq<Event>, t: State)
    requires Inv(s) && AllRead(s)
    ensures Run(s, es, t) && Inv(t) && SameCast(s, t) && t.unpublished == s.unpublished
    ensures OpenReplays(t) == {}
    decreases |OpenReplays(s)|
  {
    hide Inv, SameCast, OthersStay, Run, Registered;
    if OpenReplays(s) == {} {
      es, t := [], s;
      SameCastItself(s);
      RunNothing(s);
    } else {
      var c :| c in OpenReplays(s);
      var first, u := Replay(s, c);
      SameReaders(s, u);
      OneReplayLess(s, u, c);
      var rest;
      rest, t := ReplayAll(u);
      SameCasts(s, u, t);
      RunsJoin(s, first, u, rest, t);
      es := first + rest;
    }
  }

  /** One listener receives all its pending sends. */
  lemma {:induction false} DeliverTo(s: State, c: nat) returns (es: seq<Event>, t: State)
    requires Inv(s) && c in s.listeners && s.listeners[c].reading
    ensures Run(s, es, t) && Inv(t) && SameCast(s, t) && t.unpublished == s.unpublished
    ensures c in t.listeners && t.listeners[c].pending == multiset{} && t.listeners[c].replay == s.listeners[c].replay
    ensures OthersStay(s, t, c)
    decreases |s.listeners[c].pending|
  {
    hide Inv, SameCast, OthersStay;
    if s.listeners[c].pending == multiset{} {
      es, t := [], s;
      SameCastItself(s);
      OthersStayThemselves(s, c);
    } else {
      var item :| item in s.listeners[c].pending;
      var e := Deliver(c, item);
      var u := Step(s, e);
      StepKeepsInv(s, e);
      CastStep(s, e);
      assert u.listeners[c].pending == s.listeners[c].pending - multiset{item};
      es, t := DeliverTo(u, c);
      SameCasts(s, u, t);
      OthersStill(s, u, t, c);
      RunPrepend(s, e, es, t);
      es := [e] + es;
    }
  }

  function Expecting(s: State): set<nat> {
    set c | c in s.listeners && Registered(s, c) && s.listeners[c].pending != multiset{}
  }

  lemma SameListeners(s: State, t: State)
    requires SameCast(s, t)
    ensures forall d :: d in t.listeners <==> d in s.listeners
  {
  }

  lemma OneLessExpecting(s: State, t: State, c: nat)
    requires SameCast(s, t) && OthersStay(s, t, c) && c in s.listeners && c in t.listeners
    requires t.listeners[c].pending == multiset{}
    ensures Expecting(t) == Expecting(s) - {c}
  {
    SameReaders(s, t);
    SameListeners(s, t);
    hide Registered, SameCast;
  }

  lemma SameReplays(s: State, t: State, c: nat)
    requires SameCast(s, t) && OthersStay(s, t, c) && c in s.listeners && c in t.listeners
    requires t.listeners[c].replay == s.listeners[c].replay
    ensures OpenReplays(t) == OpenReplays(s)
  {
    SameReaders(s, t);
    SameListeners(s, t);
    hide Registered, SameCast;
  }

  lemma {:induction false} DeliverAll(s: State) returns (es: seq<Event>, t: State)
    requires Inv(s) && AllRead(s)
    ensures Run(s, es, t) && Inv(t) && SameCast(s, t) && t.unpublished == s.unpublished
    ensures Expecting(t) == {} && OpenReplays(t) == OpenReplays(s)
    decreases |Expecting(s)|
  {
    hide Inv, SameCast, OthersStay, Run, Registered, OpenReplays;
    if Expecting(s) == {} {
      es, t := [], s;
      SameCastItself(s);
      RunNothing(s);
    } else {
      var c :| c in Expecting(s);
      var first, u := DeliverTo(s, c);
      SameReaders(s, u);
      OneLessExpecting(s, u, c);
      SameReplays(s, u, c);
      var rest;
      rest, t := DeliverAll(u);
      SameCasts(s, u, t);
      RunsJoin(s, first, u, rest, t);
      es := first + rest;
    }
  }

  lemma NothingLeft(s: State)
    requires s.unpublished == {} && OpenReplays(s) == {} && Expecting(s) == {}
    ensures Quiet(s)
  {
    forall c | c in s.listeners && Registered(s, c)
      ensures s.listeners[c].replay == Ended && s.listeners[c].pending == multiset{}
    {
      assert c !in OpenReplays(s) && c !in Expecting(s);
    }
  }

  /** A registered stream watches the stored object of this key. */
  predicate Wants(s: State, c: nat, key: Key) {
    && c in s.listeners && Registered(s, c) && key in s.store
    && key.kind == KindOf(s.listeners[c].watch) && Matches(s.listeners[c].watch, s.store[key].obj)
  }

  /**
   * While every registered stream reads, everything on its way can arrive without anything new being
   * stored: from every reachable state there is a run to a state where nothing is on its way, and
   * there every stream has the current version of every object it asked for.
   */
  lemma EverythingCanArrive(es: seq<Event>, s: State) returns (fs: seq<Event>, t: State)
    requires Run(INIT, es, s) && AllRead(s)
    ensures Run(s, fs, t) && SameCast(s, t) && Quiet(t)
    ensures forall c, key :: Wants(t, c, key) ==> t.store[key] in t.listeners[c].forwarded
  {
    hide Inv, SameCast, Run, AllRead, Quiet, Registered, OpenReplays, Expecting, Matches, KindOf;
    RunKeepsInv(INIT, es, s);
    var fs1, t1 := PublishAll(s);
    SameReaders(s, t1);
    var fs2, t2 := ReplayAll(t1);
    SameReaders(t1, t2);
    var fs3;
    fs3, t := DeliverAll(t2);
    SameCasts(s, t1, t2);
    SameCasts(s, t2, t);
    RunsJoin(s, fs1, t1, fs2, t2);
    RunsJoin(s, fs1 + fs2, t2, fs3, t);
    fs := fs1 + fs2 + fs3;
    NothingLeft(t);
    RunsJoin(INIT, es, s, fs, t);
    forall c, key | Wants(t, c, key) ensures t.store[key] in t.listeners[c].forwarded {
      QuietIsUpToDate(es + fs, t, c, key);
    }
  }

  // ---------------------------------------------------------------------------------------------
  // Updates and streams get through

  /** While no replay runs, an update is stored as the current version and sent to every registered stream of its kind. */
  lemma UpdateGetsThrough(s: State, obj: Object) returns (es: seq<Event>, t: State)
    requires WriteLockFree(s) && Item(|s.log|, obj) !in s.unpublished
    ensures Run(s, es, t)
    ensures
      var item := Item(|s.log|, obj);
      && t.store == s.store[Key(obj.kind, obj.uid) := item] && t.unpublished == s.unpublished
      && t.chans == s.chans && t.listeners.Keys == s.listeners.Keys
      && forall c :: c in s.listeners ==>
           t.listeners[c].pending[item] == s.listeners[c].pending[item] + multiset(s.chans.Of(obj.kind))[c]
  {
    var item := Item(|s.log|, obj);
    var u := Step(s, Store(obj));
    t := Step(u, Publish(item));
    RunNothing(t);
    RunPrepend(u, Publish(item), [], t);
    RunPrepend(s, Store(obj), [Publish(item)] + [], t);
    es := [Store(obj)] + ([Publish(item)] + []);
  }

  lemma ReplaysDone(s: State, u: State, t: State, c: nat)
    requires WriteLockFree(s) && u.listeners.Keys == s.listeners.Keys + {c} && t.listeners.Keys == u.listeners.Keys
    requires OthersStay(s, u, c) && OthersStay(u, t, c) && c in t.listeners && t.listeners[c].replay == Ended
    ensures WriteLockFree(t) && OthersStay(s, t, c)
  {
    forall d | d in t.listeners ensures !t.listeners[d].replay.Reading? {
      if d != c {
        assert d in s.listeners;
      }
    }
  }

  /** A stream that reads is registered and served its whole replay when it comes. */
  lemma StreamComes(s: State, c: nat, w: Watch) returns (es: seq<Event>, t: State)
    requires Inv(s) && WriteLockFree(s) && c !in s.listeners
    ensures Run(s, es, t) && Inv(t) && WriteLockFree(t) && t.store == s.store && Registered(t, c)
    ensures t.listeners[c].watch == w && t.listeners[c].replay == Ended && t.listeners[c].reading
    ensures OthersStay(s, t, c)
  {
    hide Inv;
    var u := Step(s, Add(c, w));
    StepKeepsInv(s, Add(c, w));
    RegisteredStep(s, Add(c, w), c);
    hide Enabled, Step, Run;
    es, t := Replay(u, c);
    SameReaders(u, t);
    ReplaysDone(s, u, t, c);
    RunPrepend(s, Add(c, w), es, t);
    es := [Add(c, w)] + es;
  }

  /** A stream that stops is removed once no replay runs. */
  lemma StreamGoes(s: State, c: nat) returns (es: seq<Event>, t: State)
    requires Registered(s, c) && s.listeners[c].reading && WriteLockFree(s)
    ensures Run(s, es, t) && t.store == s.store && !Registered(t, c)
    ensures t.listeners == s.listeners[c := s.listeners[c].(reading := false)]
  {
    var u := Step(s, Stop(c));
    assert Registered(u, c) && WriteLockFree(u);
    t := Step(u, Remove(c));
    RegisteredStep(u, Remove(c), c);
    RunNothing(t);
    RunPrepend(u, Remove(c), [], t);
    RunPrepend(s, Stop(c), [Remove(c)] + [], t);
    es := [Stop(c)] + ([Remove(c)] + []);
  }
}
