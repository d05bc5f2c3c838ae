/**
 * Acknowledgements on one gRPC subscription stream (pkg/api/runtime/grpc/grpc_api.go,
 * buildSubscribeHandler and startAckReceiverForStream): message handlers register a channel in a
 * shared map and wait on it; one receiver goroutine looks client acks up under the read lock and
 * hands them over while still holding it.
 *
 * A step is an access to shared state. Writers of the map lock, write and unlock in one step; the
 * receiver's read lock spans several. The map entry of a message id is the handler whose channel it
 * holds.
 */
module AckProtocol {

  /** What a handler returns to the broker callback. */
  datatype Outcome = Success | Failure

  datatype Pc =
    | Entering                    // about to register its channel
    | Sending                     // registered, about to marshal and send to the client
    | Waiting                     // in its select
    | Cleaning(result: Outcome)   // past its select, about to delete its map entry
    | Done(result: Outcome)

  datatype Handler = Handler(id: string, pc: Pc)

  /** A client AckRequest. An empty error text is a positive acknowledgement. */
  datatype Ack = Ack(id: string, error: string)

  datatype Receiver =
    | Receiving                           // at the top of its loop
    | Received(k: nat)                    // holds the k-th ack, no lock yet
    | Delivering(k: nat, handler: nat)    // holds the read lock, blocked in its channel send
    | Delivered                           // holds the read lock, about to release it
    | Stopped

  datatype State = State(
    handlers: map<nat, Handler>,
    entries: map<string, nat>,       // the shared map: message id to handler
    receiver: Receiver,
    acks: seq<Ack>,                  // every AckRequest received, in order
    taken: map<nat, nat>,            // which ack a handler met in its select
    brokerAcked: set<nat>)           // handlers whose message was acknowledged to the broker

  const INIT := State(map[], map[], Receiving, [], map[], {})

  predicate WriteLockFree(s: State) {
    !s.receiver.Delivering? && !s.receiver.Delivered?
  }

  datatype Event =
    | Arrive(h: nat, id: string)
    | Register(h: nat)
    | SendOk(h: nat)
    | SendFail(h: nat)         // marshalling or sending failed
    | ContextDone(h: nat)      // the subscription was refreshed or closed, or the message timed out
    | Clean(h: nat)
    | BrokerAck(h: nat)        // the broker callback saw the handler return nil
    | Receive(ack: Ack)
    | Find
    | Handover
    | Unlock
    | Stop

  predicate At(s: State, h: nat, pc: Pc) {
    h in s.handlers && s.handlers[h].pc == pc
  }

  predicate Enabled(s: State, e: Event) {
    match e
    case Arrive(h, id) => h !in s.handlers
    case Register(h) => At(s, h, Entering) && WriteLockFree(s)
    case SendOk(h) => At(s, h, Sending)
    case SendFail(h) => At(s, h, Sending)
    case ContextDone(h) => At(s, h, Waiting)
    case Clean(h) => h in s.handlers && s.handlers[h].pc.Cleaning? && WriteLockFree(s)
    case BrokerAck(h) => At(s, h, Done(Success)) && h !in s.brokerAcked
    case Receive(_) => s.receiver == Receiving
    case Find => s.receiver.Received? && s.receiver.k < |s.acks|
    case Handover => s.receiver.Delivering? && s.receiver.k < |s.acks| && At(s, s.receiver.handler, Waiting)
    case Unlock => s.receiver == Delivered
    case Stop => s.receiver == Receiving
  }

  function Move(s: State, h: nat, pc: Pc): State
    requires h in s.handlers
  {
    s.(handlers := s.handlers[h := s.handlers[h].(pc := pc)])
  }

  function ResultOf(ack: Ack): Outcome {
    if ack.error == "" then Success else Failure
  }

  function Step(s: State, e: Event): State
    requires Enabled(s, e)
  {
    match e
    case Arrive(h, id) => s.(handlers := s.handlers[h := Handler(id, if id == "" then Done(Failure) else Entering)])
    case Register(h) => Move(s, h, Sending).(entries := s.entries[s.handlers[h].id := h])
    case SendOk(h) => Move(s, h, Waiting)
    case SendFail(h) => Move(s, h, Cleaning(Failure))
    case ContextDone(h) => Move(s, h, Cleaning(Failure))
    case Clean(h) => Move(s, h, Done(s.handlers[h].pc.result)).(entries := s.entries - {s.handlers[h].id})
    case BrokerAck(h) => s.(brokerAcked := s.brokerAcked + {h})
    case Receive(ack) => s.(receiver := Received(|s.acks|), acks := s.acks + [ack])
    case Find =>
      var id := s.acks[s.receiver.k].id;
      s.(receiver := if id in s.entries then Delivering(s.receiver.k, s.entries[id]) else Receiving)
    case Handover =>
      var h, k := s.receiver.handler, s.receiver.k;
      Move(s, h, Cleaning(ResultOf(s.acks[k]))).(receiver := Delivered, taken := s.taken[h := k])
    case Unlock => s.(receiver := Receiving)
    case Stop => s.(receiver := Stopped)
  }

  ghost predicate Run(s: State, es: seq<Event>, t: State)
    decreases |es|
  {
    if es == [] then s == t else Enabled(s, es[0]) && Run(Step(s, es[0]), es[1..], t)
  }

  // ---------------------------------------------------------------------------------------------
  // The invariant

  predicate Registered(pc: Pc) {
    pc.Sending? || pc.Waiting? || pc.Cleaning?
  }

  /** The ack in hand is the latest one, and no handler has met it. */
  predicate ReceiverInv(s: State) {
    match s.receiver
    case Received(k) => k + 1 == |s.acks|
    case Delivering(k, h) =>
      && k + 1 == |s.acks|
      && h in s.handlers && Registered(s.handlers[h].pc) && s.handlers[h].id == s.acks[k].id
    case _ => true
  }

  function AcksMet(s: State): nat {
    if s.receiver.Received? || s.receiver.Delivering? then if |s.acks| > 0 then |s.acks| - 1 else 0 else |s.acks|
  }

  predicate EntryInv(s: State, id: string) {
    id in s.entries ==>
      && s.entries[id] in s.handlers
      && s.handlers[s.entries[id]].id == id && Registered(s.handlers[s.entries[id]].pc)
  }

  /** A handler that met an ack carries its result; success comes from nowhere else. */
  predicate HandlerInv(s: State, h: nat) {
    && (h in s.taken ==>
          && h in s.handlers && s.taken[h] < AcksMet(s) <= |s.acks|
          && s.acks[s.taken[h]].id == s.handlers[h].id
          && (s.handlers[h].pc.Cleaning? || s.handlers[h].pc.Done?)
          && s.handlers[h].pc.result == ResultOf(s.acks[s.taken[h]]))
    && (h in s.handlers && (s.handlers[h].pc == Cleaning(Success) || s.handlers[h].pc == Done(Success)) ==> h in s.taken)
    && (h in s.brokerAcked ==> At(s, h, Done(Success)))
  }

  ghost predicate Inv(s: State) {
    && ReceiverInv(s)
    && (forall id :: EntryInv(s, id))
    && (forall h :: HandlerInv(s, h))
    && (forall g, h :: g in s.taken && h in s.taken && s.taken[g] == s.taken[h] ==> g == h)
  }

  lemma ReceiverKept(s: State, e: Event)
    requires ReceiverInv(s) && Enabled(s, e)
    requires e.Find? ==> EntryInv(s, s.acks[s.receiver.k].id)
    ensures ReceiverInv(Step(s, e))
  {
  }

  lemma EntryKept(s: State, e: Event, id: string)
    requires EntryInv(s, id) && Enabled(s, e)
    requires e.Clean? ==> EntryInv(s, s.handlers[e.h].id)
    ensures EntryInv(Step(s, e), id)
  {
  }

  lemma HandlerKept(s: State, e: Event, h: nat)
    requires ReceiverInv(s) && HandlerInv(s, h) && Enabled(s, e)
    ensures HandlerInv(Step(s, e), h)
  {
  }

  lemma TakenKept(s: State, e: Event)
    requires Inv(s) && Enabled(s, e)
    ensures
      var t := Step(s, e);
      forall g, h :: g in t.taken && h in t.taken && t.taken[g] == t.taken[h] ==> g == h
  {
    if e.Handover? {
      forall g | g in s.taken ensures s.taken[g] < s.receiver.k {
        assert HandlerInv(s, g);
      }
    }
  }

  lemma StepKeepsInv(s: State, e: Event)
    requires Inv(s) && Enabled(s, e)
    ensures Inv(Step(s, e))
  {
    ReceiverKept(s, e);
    TakenKept(s, e);
    hide Step, EntryInv, HandlerInv, ReceiverInv;
    forall id ensures EntryInv(Step(s, e), id) {
      EntryKept(s, e, id);
    }
    forall h ensures HandlerInv(Step(s, e), h) {
      HandlerKept(s, e, h);
    }
  }

  lemma {:induction false} RunKeepsInv(s: State, es: seq<Event>, t: State)
    requires Inv(s) && Run(s, es, t)
    ensures Inv(t)
    decreases |es|
  {
    if es != [] {
      StepKeepsInv(s, es[0]);
      RunKeepsInv(Step(s, es[0]), es[1..], t);
    }
  }

  // ---------------------------------------------------------------------------------------------
  // No invented acks

  /** Handlers of a message id that returned, or are about to return, success. */
  function Successes(s: State, id: string): set<nat> {
    set h | h in s.handlers && s.handlers[h].id == id &&
            (s.handlers[h].pc == Cleaning(Success) || s.handlers[h].pc == Done(Success))
  }

  function BrokerAcks(s: State, id: string): set<nat> {
    set h | h in s.brokerAcked && h in s.handlers && s.handlers[h].id == id
  }

  /** Positive client acks received for a message id. */
  function PositiveAcks(s: State, id: string): set<nat> {
    set k | 0 <= k < |s.acks| && s.acks[k] == Ack(id, "")
  }

  lemma {:induction false} InjectionBound(a: set<nat>, b: set<nat>, f: map<nat, nat>)
    requires forall x :: x in a ==> x in f && f[x] in b
    requires forall x, y :: x in a && y in a && f[x] == f[y] ==> x == y
    ensures |a| <= |b|
  {
    if x :| x in a {
      InjectionBound(a - {x}, b - {f[x]}, f);
    }
  }

  /**
   * On every run, whatever is duplicated, cancelled or fails: each successful handler met its own
   * positive client ack for its message id, so there are never more broker acks for an id than
   * positive client acks received for it.
   */
  lemma NoInventedAcks(es: seq<Event>, s: State, id: string)
    requires Run(INIT, es, s)
    ensures forall h :: h in Successes(s, id) ==> h in s.taken && s.taken[h] in PositiveAcks(s, id)
    ensures forall g, h :: g in s.taken && h in s.taken && s.taken[g] == s.taken[h] ==> g == h
    ensures BrokerAcks(s, id) <= Successes(s, id)
    ensures |BrokerAcks(s, id)| <= |Successes(s, id)| <= |PositiveAcks(s, id)|
  {
    RunKeepsInv(INIT, es, s);
    var a, b := Successes(s, id), PositiveAcks(s, id);
    forall h | h in a ensures h in s.taken && s.taken[h] in b {
      assert HandlerInv(s, h);
    }
    InjectionBound(a, b, s.taken);
    var broker := BrokerAcks(s, id);
    forall h | h in broker ensures h in a {
      assert HandlerInv(s, h);
    }
    InjectionBound(broker, a, map h | h in broker :: h);
  }

  // ---------------------------------------------------------------------------------------------
  // When the receiver gets rid of an ack

  /** The handler the receiver is blocked on has not left its select. */
  predicate Listening(s: State)
    requires s.receiver.Delivering?
  {
    At(s, s.receiver.handler, Sending) || At(s, s.receiver.handler, Waiting)
  }

  ghost predicate CanHandOver(s: State) {
    exists es, t :: Run(s, es, t) && t.receiver == Receiving
  }

  /** A receiver blocked on a handler past its select stays blocked, and the map stays locked. */
  lemma {:induction false} StuckForEver(s: State, es: seq<Event>, t: State)
    requires s.receiver.Delivering? && s.receiver.handler in s.handlers
    requires s.handlers[s.receiver.handler].pc.Cleaning?
    requires Run(s, es, t)
    ensures t.receiver == s.receiver && t.entries == s.entries && t.acks == s.acks
    ensures At(t, s.receiver.handler, s.handlers[s.receiver.handler].pc)
    decreases |es|
  {
    if es != [] {
      StuckForEver(Step(s, es[0]), es[1..], t);
    }
  }

  lemma Prepend(s: State, e: Event, es: seq<Event>, t: State)
    requires Enabled(s, e) && Run(Step(s, e), es, t)
    ensures Run(s, [e] + es, t)
  {
    assert ([e] + es)[1..] == es;
  }

  /** Steps the awaited handler still has to take. */
  function Rank(s: State): nat {
    if !s.receiver.Delivering? then 0 else if At(s, s.receiver.handler, Sending) then 2 else 1
  }

  lemma HandOverRun(s: State) returns (es: seq<Event>, t: State)
    requires s.receiver.Delivering? && s.receiver.k < |s.acks| && Listening(s)
    ensures Run(s, es, t) && t.receiver == Receiving
    decreases Rank(s)
  {
    var h := s.receiver.handler;
    if s.handlers[h].pc == Sending {
      var u := Step(s, SendOk(h));
      es, t := HandOverRun(u);
      Prepend(s, SendOk(h), es, t);
      es := [SendOk(h)] + es;
    } else {
      var u := Step(s, Handover);
      t := Step(u, Unlock);
      Prepend(u, Unlock, [], t);
      Prepend(s, Handover, [Unlock], t);
      es := [Handover] + [Unlock];
    }
  }

  /** The receiver can get rid of the ack it hands over exactly when the handler has not left its select. */
  lemma HandOverIff(es: seq<Event>, s: State)
    requires Run(INIT, es, s) && s.receiver.Delivering?
    ensures CanHandOver(s) <==> Listening(s)
  {
    RunKeepsInv(INIT, es, s);
    if Listening(s) {
      var fs, t := HandOverRun(s);
    } else {
      forall fs, t | Run(s, fs, t) ensures t.receiver != Receiving {
        StuckForEver(s, fs, t);
      }
    }
  }

  lemma {:induction false} Extend(s: State, es: seq<Event>, t: State, e: Event)
    requires Run(s, es, t) && Enabled(t, e)
    ensures Run(s, es + [e], Step(t, e))
    decreases |es|
  {
    if es == [] {
      Prepend(s, e, [], Step(t, e));
    } else {
      Extend(Step(s, es[0]), es[1..], t, e);
      assert (es + [e])[1..] == es[1..] + [e];
    }
  }

  /** One message, delivered and acked, whose handler has not cleaned up. */
  function AckedOnceState(id: string): State {
    State(map[0 := Handler(id, Cleaning(Success))], map[id := 0], Receiving, [Ack(id, "")], map[0 := 0], {})
  }

  lemma HandTheAck(id: string, before: seq<Event>, s3: State) returns (es: seq<Event>)
    requires s3 == State(map[0 := Handler(id, Waiting)], map[id := 0], Receiving, [], map[], {})
    requires Run(INIT, before, s3)
    ensures Run(INIT, es, AckedOnceState(id))
  {
    hide Run;
    var ack := Ack(id, "");
    var s4 := Step(s3, Receive(ack));
    Extend(INIT, before, s3, Receive(ack));
    es := before + [Receive(ack)];
    var s5 := Step(s4, Find);
    Extend(INIT, es, s4, Find);
    es := es + [Find];
    var s6 := Step(s5, Handover);
    Extend(INIT, es, s5, Handover);
    es := es + [Handover];
    Extend(INIT, es, s6, Unlock);
    es := es + [Unlock];
    assert Step(s6, Unlock) == AckedOnceState(id);
  }

  lemma RunNothing(s: State)
    ensures Run(s, [], s)
  {
  }

  lemma FirstAck(id: string) returns (es: seq<Event>)
    requires id != ""
    ensures Run(INIT, es, AckedOnceState(id))
  {
    hide Run;
    var s1 := Step(INIT, Arrive(0, id));
    RunNothing(INIT);
    Extend(INIT, [], INIT, Arrive(0, id));
    es := [] + [Arrive(0, id)];
    var s2 := Step(s1, Register(0));
    Extend(INIT, es, s1, Register(0));
    es := es + [Register(0)];
    var s3 := Step(s2, SendOk(0));
    Extend(INIT, es, s2, SendOk(0));
    es := es + [SendOk(0)];
    assert s3 == State(map[0 := Handler(id, Waiting)], map[id := 0], Receiving, [], map[], {});
    es := HandTheAck(id, es, s3);
  }

  /** Acking a message twice gets the receiver stuck when its handler has not cleaned up in between. */
  lemma SecondAckSticks(id: string) returns (es: seq<Event>, s: State)
    requires id != ""
    ensures Run(INIT, es, s) && s.receiver.Delivering? && !CanHandOver(s)
  {
    hide Run, CanHandOver;
    es := FirstAck(id);
    var ack, s7 := Ack(id, ""), AckedOnceState(id);
    var s8 := Step(s7, Receive(ack));
    Extend(INIT, es, s7, Receive(ack));
    es := es + [Receive(ack)];
    s := Step(s8, Find);
    Extend(INIT, es, s8, Find);
    es := es + [Find];
    HandOverIff(es, s);
  }

  // ---------------------------------------------------------------------------------------------
  // Runs in which the receiver never gets stuck

  /** No cancellation and no marshal or send failure. */
  predicate Undisturbed(es: seq<Event>) {
    forall e :: e in es ==> !e.ContextDone? && !e.SendFail?
  }

  /** Each message id is acked at most once. */
  predicate AckedOnce(s: State) {
    forall i, j :: 0 <= i < j < |s.acks| ==> s.acks[i].id != s.acks[j].id
  }

  /** Without disturbance, only a handler that met its ack is past its select. */
  ghost predicate OnlyAcksEndWaiting(s: State) {
    forall h :: h in s.handlers && s.handlers[h].pc.Cleaning? ==> h in s.taken
  }

  lemma {:induction false} UndisturbedRun(s: State, es: seq<Event>, t: State)
    requires Run(s, es, t) && OnlyAcksEndWaiting(s) && Undisturbed(es)
    ensures OnlyAcksEndWaiting(t)
    decreases |es|
  {
    if es != [] {
      var e := es[0];
      assert e in es && forall f :: f in es[1..] ==> f in es;
      UndisturbedRun(Step(s, e), es[1..], t);
    }
  }

  /** The step that brings the awaited handler closer to taking the ack. */
  function NextOfHandler(s: State): Event
    requires s.receiver.Delivering?
  {
    if At(s, s.receiver.handler, Sending) then SendOk(s.receiver.handler) else Handover
  }

  /**
   * In undisturbed runs with at most one ack per message id, a handler the receiver is blocked on is
   * registered, has not met an ack, and needs no lock on its way to its select.
   */
  lemma ReceiverNeverStuck(es: seq<Event>, s: State)
    requires Run(INIT, es, s) && Undisturbed(es) && AckedOnce(s) && s.receiver.Delivering?
    ensures Listening(s) && s.receiver.handler !in s.taken
    ensures Enabled(s, NextOfHandler(s))
  {
    RunKeepsInv(INIT, es, s);
    UndisturbedRun(INIT, es, s);
    var h := s.receiver.handler;
    assert HandlerInv(s, h);
  }

  /** The wait is bounded: the awaited handler's next step lowers the rank and no other step raises it. */
  lemma HandoverRank(s: State, e: Event)
    requires s.receiver.Delivering? && Listening(s) && Enabled(s, e)
    requires !e.ContextDone? && !e.SendFail?
    ensures
      var t := Step(s, e);
      && (e == NextOfHandler(s) ==> Rank(t) < Rank(s))
      && (e != NextOfHandler(s) ==> Rank(t) == Rank(s) && t.receiver == s.receiver && Listening(t))
      && (Rank(t) == 0 ==> s.receiver.handler in t.taken && t.taken[s.receiver.handler] == s.receiver.k)
  {
  }
}
