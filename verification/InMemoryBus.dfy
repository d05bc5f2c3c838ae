/**
 * The in-memory bus (pkg/messaging/inmemory.go) with Go slices modelled as what they are: a length
 * over a shared backing array. Publish keeps a slice and runs its handlers later, while
 * subscriptions append to the same array; the snapshots are proved not to notice.
 */
module InMemoryBus {
  import opened Sequences

  // ---------------------------------------------------------------------------------------------
  // Histories of subscribing and closing

  datatype Op<T> = Subscribed(topic: string, h: T) | Closed(topic: string, h: T)

  /** A topic's handler list, maintained operation by operation. */
  function Live<T(==)>(ops: seq<Op<T>>, topic: string): seq<T> {
    if ops == [] then []
    else
      var before, o := Live(ops[..|ops| - 1], topic), ops[|ops| - 1];
      if o.topic != topic then before
      else if o.Subscribed? then before + [o.h]
      else Without(before, o.h)
  }

  /** The handlers subscribed to a topic and not closed since, in subscription order. */
  function StillOpen<T(==)>(ops: seq<Op<T>>, topic: string): seq<T> {
    if ops == [] then []
    else
      var o, rest := ops[0], StillOpen(ops[1..], topic);
      if o.Subscribed? && o.topic == topic && Closed(topic, o.h) !in ops[1..] then [o.h] + rest else rest
  }

  lemma {:induction false} OneMoreOp<T>(ops: seq<Op<T>>, o: Op<T>, topic: string)
    ensures StillOpen(ops + [o], topic) ==
            if o.topic != topic then StillOpen(ops, topic)
            else if o.Subscribed? then StillOpen(ops, topic) + [o.h]
            else Without(StillOpen(ops, topic), o.h)
  {
    hide Without;
    WithoutOne(o.h, o.h);
    if ops != [] {
      assert (ops + [o])[1..] == ops[1..] + [o];
      OneMoreOp(ops[1..], o, topic);
      var first, rest := ops[0], StillOpen(ops[1..], topic);
      if o == Closed(topic, o.h) {
        WithoutConcat([first.h], rest, o.h);
        WithoutOne(first.h, o.h);
      }
    }
  }

  /** The maintained list is exactly the handlers that are still open, in subscription order. */
  lemma {:induction false} LiveIsStillOpen<T>(ops: seq<Op<T>>, topic: string)
    ensures Live(ops, topic) == StillOpen(ops, topic)
  {
    if ops != [] {
      var init, o := ops[..|ops| - 1], ops[|ops| - 1];
      LiveIsStillOpen(init, topic);
      OneMoreOp(init, o, topic);
      assert ops == init + [o];
    }
  }

  /** Closing takes away only its own handler, and a second close takes away nothing. */
  lemma ClosingTwice<T>(ops: seq<Op<T>>, topic: string, h: T, other: T)
    requires other != h
    ensures
      var once := ops + [Closed(topic, h)];
      && Live(once + [Closed(topic, h)], topic) == Live(once, topic)
      && h !in Live(once, topic)
      && multiset(Live(once, topic))[other] == multiset(Live(ops, topic))[other]
  {
    var once := ops + [Closed(topic, h)];
    WithoutKeepsOthers(Live(ops, topic), h, other);
    assert once[..|ops|] == ops && (once + [Closed(topic, h)])[..|once|] == once;
  }

  // ---------------------------------------------------------------------------------------------
  // Slices

  /** The address of a handler: each Subscribe call has its own. */
  class HandlerRef {
    constructor () {
    }
  }

  /** A slice header. Its capacity is the length of the backing array. */
  datatype Slice = Nil | Slice(arr: array<HandlerRef?>, len: nat)

  ghost function Array(s: Slice): set<object> {
    if s.Slice? then {s.arr} else {}
  }

  predicate SliceOk(s: Slice) {
    s.Slice? ==> s.len <= s.arr.Length
  }

  /** What a slice reads. */
  function Elements(s: Slice): seq<HandlerRef?>
    requires SliceOk(s)
    reads Array(s)
  {
    if s.Nil? then [] else s.arr[..s.len]
  }

  /** Go's append: in place behind the slice when there is room, otherwise into a new array. */
  method Append(s: Slice, h: HandlerRef?) returns (r: Slice)
    requires SliceOk(s)
    modifies Array(s)
    ensures r.Slice? && SliceOk(r) && r.len == |old(Elements(s))| + 1
    ensures Elements(r) == old(Elements(s)) + [h]
    ensures fresh(r.arr) || (s.Slice? && r.arr == s.arr)
    ensures s.Slice? ==> s.arr[..s.len] == old(s.arr[..s.len])
  {
    if s.Slice? && s.len < s.arr.Length {
      s.arr[s.len] := h;
      r := Slice(s.arr, s.len + 1);
    } else {
      var n := if s.Slice? then s.len else 0;
      var capacity :| capacity > n;
      var arr := new HandlerRef?[capacity](_ => null);
      for i := 0 to n
        invariant s.Slice? ==> s.arr[..] == old(s.arr[..])
        invariant arr[..i] == old(Elements(s))[..i]
      {
        arr[i] := s.arr[i];
      }
      arr[n] := h;
      r := Slice(arr, n + 1);
    }
  }

  // ---------------------------------------------------------------------------------------------
  // The bus

  /** A publish that read its topic's handler list: the slice it keeps and what it saw in it. */
  datatype Snapshot = Snapshot(slice: Slice, seen: seq<HandlerRef?>)

  /** Topics do not share arrays, and a snapshot of a topic's array is no longer than its list. */
  ghost predicate Apart(handlers: map<string, Slice>, snapshots: set<Snapshot>, repr: set<object>) {
    && (forall t :: t in handlers ==> SliceOk(handlers[t]) && Array(handlers[t]) <= repr)
    && (forall p :: p in snapshots ==> SliceOk(p.slice) && Array(p.slice) <= repr)
    && (forall t, u :: t in handlers && u in handlers && t != u ==> Array(handlers[t]) !! Array(handlers[u]))
    && (forall t, p :: (t in handlers && p in snapshots && handlers[t].Slice? && p.slice.Slice?
                        && handlers[t].arr == p.slice.arr) ==> p.slice.len <= handlers[t].len)
  }

  /** A topic gets a list in a new array, or a longer one in its own. */
  lemma StillApart(handlers: map<string, Slice>, snapshots: set<Snapshot>, repr: set<object>, topic: string, s: Slice)
    requires Apart(handlers, snapshots, repr) && SliceOk(s)
    requires Array(s) !! repr || (topic in handlers && handlers[topic].Slice? && s.Slice?
                                  && s.arr == handlers[topic].arr && s.len >= handlers[topic].len)
    ensures Apart(handlers[topic := s], snapshots, repr + Array(s))
    ensures forall t :: t in handlers ==> SliceOk(handlers[t]) && Array(handlers[t]) <= repr
    ensures forall p :: p in snapshots ==> SliceOk(p.slice) && Array(p.slice) <= repr
  {
  }

  /** The loop of the close function: it builds a new list and leaves the old one alone. */
  method Filtered(all: Slice, h: HandlerRef) returns (s: Slice)
    requires SliceOk(all)
    ensures SliceOk(s) && fresh(Array(s))
    ensures Elements(s) == Without(Elements(all), h)
  {
    ghost var list := Elements(all);
    s := Nil;
    var n := if all.Slice? then all.len else 0;
    for i := 0 to n
      invariant SliceOk(s) && fresh(Array(s))
      invariant all.Slice? ==> unchanged(all.arr)
      invariant Elements(s) == Without(list[..i], h)
    {
      assert list[..i + 1][..i] == list[..i];
      if all.arr[i] != h {
        s := Append(s, all.arr[i]);
      }
    }
    assert list[..n] == list;
  }

  lemma OtherTopics<T>(ops: seq<Op<T>>, o: Op<T>)
    ensures forall t :: t != o.topic ==> Live(ops + [o], t) == Live(ops, t)
  {
    assert (ops + [o])[..|ops|] == ops;
  }

  class Bus {
    var handlers: map<string, Slice>
    ghost var ops: seq<Op<HandlerRef?>>     // what was done to the bus
    ghost var snapshots: set<Snapshot>      // of every publish so far
    ghost var Repr: set<object>             // all backing arrays

    ghost predicate Valid()
      reads this, Repr
    {
      && Apart(handlers, snapshots, Repr)
      && this !in Repr
      && (forall t :: t in handlers ==> Elements(handlers[t]) == Live(ops, t))
      && (forall t :: t !in handlers ==> Live(ops, t) == [])
      && (forall p :: p in snapshots ==> Elements(p.slice) == p.seen)
    }

    constructor ()
      ensures Valid() && ops == [] && snapshots == {} && Repr == {}
    {
      handlers, ops, snapshots, Repr := map[], [], {}, {};
    }

    function ListOf(topic: string): Slice
      reads this
    {
      if topic in handlers then handlers[topic] else Nil
    }

    /** Publish reads the list under the read lock and keeps the slice. */
    method Publish(topic: string) returns (p: Snapshot)
      requires Valid()
      modifies this`snapshots
      ensures Valid()
      ensures p.seen == StillOpen(ops, topic)
      ensures snapshots == old(snapshots) + {p}
    {
      var s := ListOf(topic);
      p := Snapshot(s, Elements(s));
      snapshots := snapshots + {p};
      LiveIsStillOpen(ops, topic);
    }

    /** runHandlers: whatever was subscribed or closed since, exactly the handlers of the snapshot run. */
    method RunHandlers(p: Snapshot) returns (started: seq<HandlerRef?>)
      requires Valid() && p in snapshots
      ensures started == p.seen
    {
      started := [];
      if p.slice.Slice? {
        for i := 0 to p.slice.len
          invariant started == p.slice.arr[..i]
        {
          started := started + [p.slice.arr[i]];
        }
      }
    }

    /** The assignment to the topic's list: a new array, or the old one with more behind it. */
    method Store(topic: string, s: Slice, ghost o: Op<HandlerRef?>)
      requires Valid() && SliceOk(s) && this !in Array(s) && o.topic == topic
      requires Array(s) !! Repr || (ListOf(topic).Slice? && s.Slice? && s.arr == ListOf(topic).arr && s.len >= ListOf(topic).len)
      requires Elements(s) == Live(ops + [o], topic)
      modifies this
      ensures Valid()
      ensures Repr == old(Repr) + Array(s) && ops == old(ops) + [o] && snapshots == old(snapshots)
    {
      hide Live, Elements, Apart;
      OtherTopics(ops, o);
      StillApart(handlers, snapshots, Repr, topic, s);
      handlers := handlers[topic := s];
      Repr := Repr + Array(s);
      ops := ops + [o];
    }

    method Subscribe(topic: string) returns (h: HandlerRef)
      requires Valid()
      modifies this, Repr
      ensures Valid() && fresh(Repr - old(Repr))
      ensures fresh(h)
      ensures ops == old(ops) + [Subscribed(topic, h)]
      ensures snapshots == old(snapshots)
    {
      h := new HandlerRef();
      var s := ListOf(topic);
      assert Elements(s) == Live(ops, topic);
      var r := Append(s, h);
      assert Valid() by {
        forall p | p in snapshots ensures Elements(p.slice) == p.seen {
          if p.slice.Slice? && s.Slice? && p.slice.arr == s.arr {
            assert s.arr[..s.len][..p.slice.len] == s.arr[..p.slice.len];
            assert old(s.arr[..s.len])[..p.slice.len] == old(s.arr[..p.slice.len]);
          }
        }
      }
      ghost var o: Op<HandlerRef?> := Subscribed(topic, h);
      assert (ops + [o])[..|ops|] == ops;
      Store(topic, r, o);
    }

    /** The function Subscribe returns. */
    method Close(topic: string, h: HandlerRef)
      requires Valid()
      modifies this
      ensures Valid() && fresh(Repr - old(Repr))
      ensures ops == old(ops) + [Closed(topic, h)]
      ensures snapshots == old(snapshots)
    {
      var all := ListOf(topic);
      var s := Filtered(all, h);
      assert Elements(all) == Live(ops, topic);
      ghost var o: Op<HandlerRef?> := Closed(topic, h);
      assert (ops + [o])[..|ops|] == ops;
      Store(topic, s, o);
    }
  }
}
