/**
 * What the events of a run say about the handlers and the receiver of AckProtocol, and that an ack
 * that can reach its handler does: the receiver goes on after every ack it can get rid of.
 */
module AckHistory {
  import opened Wrappers
  import opened AckProtocol

  lemma {:induction false} LastStep(s: State, es: seq<Event>, t: State) returns (u: State)
    requires es != [] && Run(s, es, t)
    ensures
      var init, e := es[..|es| - 1], es[|es| - 1];
      && Run(s, init, u) && Enabled(u, e) && t == Step(u, e)
      && es == init + [e] && forall x :: x in es <==> x in init || x == e
    decreases |es|
  {
    if |es| == 1 {
      u := s;
    } else {
      u := LastStep(Step(s, es[0]), es[1..], t);
      assert es[..|es| - 1][1..] == es[1..][..|es| - 2];
    }
  }

  // ---------------------------------------------------------------------------------------------
  // The record

  /** Nothing but the end of the stream stops the receiver: not an unknown ack, and not a negative one. */
  lemma {:induction false} OnlyStopStops(es: seq<Event>, s: State)
    requires Run(INIT, es, s)
    ensures s.receiver == Stopped <==> Stop in es
    decreases |es|
  {
    if es != [] {
      var u := LastStep(INIT, es, s);
      OnlyStopStops(es[..|es| - 1], u);
    }
  }

  /** The acks received, in order. */
  function AcksReceived(es: seq<Event>): seq<Ack> {
    if es == [] then []
    else
      var e := es[|es| - 1];
      AcksReceived(es[..|es| - 1]) + (if e.Receive? then [e.ack] else [])
  }

  lemma {:induction false} AcksAreEvents(es: seq<Event>, s: State)
    requires Run(INIT, es, s)
    ensures s.acks == AcksReceived(es)
    decreases |es|
  {
    if es != [] {
      var u := LastStep(INIT, es, s);
      AcksAreEvents(es[..|es| - 1], u);
    }
  }

  /** A handler is for the message it arrived with; without a message id it fails at once; broker acks are events. */
  lemma {:induction false} HandlersAreEvents(es: seq<Event>, s: State, h: nat, id: string)
    requires Run(INIT, es, s)
    ensures Arrive(h, id) in es <==> h in s.handlers && s.handlers[h].id == id
    ensures h in s.handlers && s.handlers[h].id == "" ==> s.handlers[h].pc == Done(Failure)
    ensures BrokerAck(h) in es <==> h in s.brokerAcked
    decreases |es|
  {
    if es != [] {
      var u := LastStep(INIT, es, s);
      HandlersAreEvents(es[..|es| - 1], u, h, id);
    }
  }

  /** The handler whose channel is behind a message id: the last to register, unless one cleaned up since. */
  function Registrant(s: State, es: seq<Event>, id: string): Option<nat> {
    if es == [] then None
    else
      var e := es[|es| - 1];
      if e.Register? && e.h in s.handlers && s.handlers[e.h].id == id then Some(e.h)
      else if e.Clean? && e.h in s.handlers && s.handlers[e.h].id == id then None
      else Registrant(s, es[..|es| - 1], id)
  }

  lemma {:induction false} SameRegistrant(s: State, t: State, es: seq<Event>, id: string)
    requires forall e :: e in es && (e.Register? || e.Clean?) ==> e.h in s.handlers
    requires forall h :: h in s.handlers ==> h in t.handlers && t.handlers[h].id == s.handlers[h].id
    ensures Registrant(s, es, id) == Registrant(t, es, id)
  {
    if es != [] {
      assert es[|es| - 1] in es;
      SameRegistrant(s, t, es[..|es| - 1], id);
    }
  }

  /** The map entry of a message id is its registrant: any handler of the id takes it away when it cleans up. */
  lemma {:induction false} EntryIsRegistrant(es: seq<Event>, s: State, id: string)
    requires Run(INIT, es, s)
    ensures forall e :: e in es && (e.Register? || e.Clean?) ==> e.h in s.handlers
    ensures Registrant(s, es, id) == if id in s.entries then Some(s.entries[id]) else None
    decreases |es|
  {
    if es != [] {
      var u := LastStep(INIT, es, s);
      EntryIsRegistrant(es[..|es| - 1], u, id);
      SameRegistrant(u, s, es[..|es| - 1], id);
    }
  }

  // ---------------------------------------------------------------------------------------------
  // Getting on

  lemma Nothing(s: State)
    ensures Run(s, [], s)
  {
  }

  predicate WaitsForAck(s: State, h: nat) {
    At(s, h, Waiting) && s.handlers[h].id in s.entries && s.entries[s.handlers[h].id] == h
  }

  /** An ack for a waiting handler ends it with the ack's own result, and the receiver is ready for the next one. */
  lemma AckReachesHandler(s: State, h: nat, error: string) returns (es: seq<Event>, t: State)
    requires s.receiver == Receiving && WaitsForAck(s, h)
    ensures Run(s, es, t)
    ensures t.receiver == Receiving && t.acks == s.acks + [Ack(s.handlers[h].id, error)]
    ensures t.handlers == s.handlers[h := Handler(s.handlers[h].id, Done(if error == "" then Success else Failure))]
    ensures t.entries == s.entries - {s.handlers[h].id} && t.taken == s.taken[h := |s.acks|]
  {
    hide Run;
    var ack := Ack(s.handlers[h].id, error);
    Nothing(s);
    Extend(s, [], s, Receive(ack));
    es := [] + [Receive(ack)];
    var s1 := Step(s, Receive(ack));
    Extend(s, es, s1, Find);
    es := es + [Find];
    var s2 := Step(s1, Find);
    Extend(s, es, s2, Handover);
    es := es + [Handover];
    var s3 := Step(s2, Handover);
    Extend(s, es, s3, Unlock);
    es := es + [Unlock];
    var s4 := Step(s3, Unlock);
    Extend(s, es, s4, Clean(h));
    es := es + [Clean(h)];
    t := Step(s4, Clean(h));
  }

  /** A handler that succeeded gets its message acknowledged to the broker. */
  lemma SuccessIsAcknowledged(s: State, h: nat) returns (es: seq<Event>, t: State)
    requires At(s, h, Done(Success)) && h !in s.brokerAcked
    ensures Run(s, es, t) && t == s.(brokerAcked := s.brokerAcked + {h})
  {
    Nothing(s);
    Extend(s, [], s, BrokerAck(h));
    es, t := [] + [BrokerAck(h)], Step(s, BrokerAck(h));
  }

  /** An ack for a message id nobody waits under is read and forgotten. */
  lemma UnknownAckIsSkipped(s: State, ack: Ack) returns (es: seq<Event>, t: State)
    requires s.receiver == Receiving && ack.id !in s.entries
    ensures Run(s, es, t) && t == s.(acks := s.acks + [ack])
  {
    hide Run;
    Nothing(s);
    Extend(s, [], s, Receive(ack));
    var s1 := Step(s, Receive(ack));
    Extend(s, [] + [Receive(ack)], s1, Find);
    es := [] + [Receive(ack)] + [Find];
    t := Step(s1, Find);
  }

  /** A message with an id gets its handler to its select, with the entry of its id. */
  lemma MessageWaits(s: State, h: nat, id: string) returns (es: seq<Event>, t: State)
    requires h !in s.handlers && id != "" && WriteLockFree(s)
    ensures Run(s, es, t) && t == s.(handlers := s.handlers[h := Handler(id, Waiting)], entries := s.entries[id := h])
  {
    hide Run;
    Nothing(s);
    Extend(s, [], s, Arrive(h, id));
    es := [] + [Arrive(h, id)];
    var s1 := Step(s, Arrive(h, id));
    Extend(s, es, s1, Register(h));
    es := es + [Register(h)];
    var s2 := Step(s1, Register(h));
    Extend(s, es, s2, SendOk(h));
    es := es + [SendOk(h)];
    t := Step(s2, SendOk(h));
  }

  /** A handler whose context is done fails and takes the entry of its message id with it. */
  lemma CancelledHandlerFails(s: State, h: nat) returns (es: seq<Event>, t: State)
    requires At(s, h, Waiting) && WriteLockFree(s)
    ensures Run(s, es, t)
    ensures t == s.(handlers := s.handlers[h := Handler(s.handlers[h].id, Done(Failure))],
                    entries := s.entries - {s.handlers[h].id})
  {
    hide Run;
    Nothing(s);
    Extend(s, [], s, ContextDone(h));
    var s1 := Step(s, ContextDone(h));
    Extend(s, [] + [ContextDone(h)], s1, Clean(h));
    es := [] + [ContextDone(h)] + [Clean(h)];
    t := Step(s1, Clean(h));
  }

  /** A handler that cannot send its message fails the same way. */
  lemma UnsentHandlerFails(s: State, h: nat) returns (es: seq<Event>, t: State)
    requires At(s, h, Sending) && WriteLockFree(s)
    ensures Run(s, es, t)
    ensures t == s.(handlers := s.handlers[h := Handler(s.handlers[h].id, Done(Failure))],
                    entries := s.entries - {s.handlers[h].id})
  {
    hide Run;
    Nothing(s);
    Extend(s, [], s, SendFail(h));
    var s1 := Step(s, SendFail(h));
    Extend(s, [] + [SendFail(h)], s1, Clean(h));
    es := [] + [SendFail(h)] + [Clean(h)];
    t := Step(s1, Clean(h));
  }

  // ---------------------------------------------------------------------------------------------
  // Deliveries that lose their entry

  ghost predicate CanBeAcked(s: State, h: nat) {
    exists es, t :: Run(s, es, t) && h in t.taken
  }

  /** Registered, without its entry, and not the one the receiver is about to hand an ack to. */
  predicate Lost(s: State, h: nat) {
    && h in s.handlers && s.handlers[h].pc != Entering && h !in s.taken
    && !(s.handlers[h].id in s.entries && s.entries[s.handlers[h].id] == h)
    && !(s.receiver.Delivering? && s.receiver.handler == h)
  }

  lemma LostStep(s: State, e: Event, h: nat)
    requires Enabled(s, e) && Lost(s, h)
    requires e.Find? ==> EntryInv(s, s.acks[s.receiver.k].id)
    ensures Lost(Step(s, e), h)
  {
  }

  /** A delivery that has lost its entry is never acked. */
  lemma {:induction false} LostForEver(s: State, es: seq<Event>, t: State, h: nat)
    requires Inv(s) && Run(s, es, t) && Lost(s, h)
    ensures h !in t.taken
    decreases |es|
  {
    if es != [] {
      assert es[0].Find? ==> EntryInv(s, s.acks[s.receiver.k].id);
      StepKeepsInv(s, es[0]);
      LostStep(s, es[0], h);
      LostForEver(Step(s, es[0]), es[1..], t, h);
    }
  }

  /** While the receiver is free, a handler in its select can be acked exactly when it is its id's registrant. */
  lemma CanBeAckedIff(es: seq<Event>, s: State, h: nat)
    requires Run(INIT, es, s) && s.receiver == Receiving && At(s, h, Waiting)
    ensures CanBeAcked(s, h) <==> Registrant(s, es, s.handlers[h].id) == Some(h)
  {
    EntryIsRegistrant(es, s, s.handlers[h].id);
    RunKeepsInv(INIT, es, s);
    assert HandlerInv(s, h);
    if WaitsForAck(s, h) {
      var fs, t := AckReachesHandler(s, h, "");
    } else {
      forall fs, t | Run(s, fs, t) ensures h !in t.taken {
        LostForEver(s, fs, t, h);
      }
    }
  }

  lemma {:induction false} RunsJoin(s: State, es: seq<Event>, t: State, fs: seq<Event>, u: State)
    requires Run(s, es, t) && Run(t, fs, u)
    ensures Run(s, es + fs, u)
    decreases |es|
  {
    if es == [] {
      assert es + fs == fs;
    } else {
      assert (es + fs)[1..] == es[1..] + fs;
      RunsJoin(Step(s, es[0]), es[1..], t, fs, u);
    }
  }

  /**
   * A message that is delivered again while its first delivery waits: when the first one is cancelled it
   * takes the entry of the second with it, and the second can never be acked.
   */
  lemma RedeliveryLosesItsEntry(id: string) returns (es: seq<Event>, s: State)
    requires id != ""
    ensures Run(INIT, es, s) && At(s, 1, Waiting) && s.handlers[1].id == id && !CanBeAcked(s, 1)
  {
    hide Run, CanBeAcked;
    var es1, s1 := MessageWaits(INIT, 0, id);
    var es2, s2 := MessageWaits(s1, 1, id);
    RunsJoin(INIT, es1, s1, es2, s2);
    var es3;
    es3, s := CancelledHandlerFails(s2, 0);
    es := es1 + es2 + es3;
    RunsJoin(INIT, es1 + es2, s2, es3, s);
    CanBeAckedIff(es, s, 1);
    EntryIsRegistrant(es, s, id);
  }
}
