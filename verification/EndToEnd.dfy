/**
 * From the client's acks to the broker's: the message handlers of a gRPC stream (AckProtocol) inside the
 * callback that the subscriber service gives to the broker (Pipeline). The brokers of
 * pkg/messaging/jetstream/jetstream.go and pkg/messaging/nats/nats.go acknowledge a message exactly when
 * their callback returns no error.
 */
module EndToEnd {
  import opened Wrappers
  import Ack = AckProtocol
  import opened Pipeline

  /** What the stream's handler gives back for a delivery, once it has returned. */
  function ClientHandler(s: Ack.State): Handler {
    (env: Envelope) =>
      Outcome([Work(env.id)],
              if env.delivery in s.handlers && s.handlers[env.delivery].pc == Ack.Done(Ack.Success) then None
              else Some("not acknowledged"))
  }

  /** The deliveries of a message id that the broker acknowledges after their callback has returned. */
  function Acknowledged(s: Ack.State, callback: Handler, id: string): set<nat> {
    set h | h in s.handlers && s.handlers[h].id == id && s.handlers[h].pc.Done? && callback(Envelope(h, id)).error.None?
  }

  /** The callback that StartSubscribing builds. */
  function Callback(user: seq<Middleware>, s: Ack.State): Handler {
    Nest(user, Around(METRICS)(Around(TRACING)(ClientHandler(s))))
  }

  lemma {:induction false} SubsetSize(a: set<nat>, b: set<nat>)
    requires a <= b
    ensures |a| <= |b|
  {
    if x :| x in a {
      SubsetSize(a - {x}, b - {x});
    }
  }

  /**
   * No invented acks, end to end. With user middlewares that pass errors on, after any run of the
   * stream the broker's acks for a message id belong to deliveries whose handler met its own positive
   * client ack, and are never more than the positive client acks received for it.
   */
  lemma NoInventedBrokerAcks(user: seq<Middleware>, es: seq<Ack.Event>, s: Ack.State, id: string)
    requires Ack.Run(Ack.INIT, es, s) && forall m :: m in user ==> PassesErrors(m)
    ensures forall h :: h in Acknowledged(s, Callback(user, s), id) ==>
                          h in s.taken && s.taken[h] in Ack.PositiveAcks(s, id)
    ensures forall g, h :: g in s.taken && h in s.taken && s.taken[g] == s.taken[h] ==> g == h
    ensures |Acknowledged(s, Callback(user, s), id)| <= |Ack.PositiveAcks(s, id)|
    ensures Ack.BrokerAcks(s, id) <= Acknowledged(s, Callback(user, s), id)
  {
    Ack.NoInventedAcks(es, s, id);
    var acked, good := Acknowledged(s, Callback(user, s), id), Ack.Successes(s, id);
    forall h ensures Callback(user, s)(Envelope(h, id)).error == ClientHandler(s)(Envelope(h, id)).error {
      CallbackError(user, ClientHandler(s), Envelope(h, id));
    }
    assert acked <= good;
    SubsetSize(acked, good);
    forall h | h in Ack.BrokerAcks(s, id) ensures h in acked {
      Ack.RunKeepsInv(Ack.INIT, es, s);
      assert Ack.HandlerInv(s, h);
    }
  }

  /** A middleware that swallows the error. */
  function Swallow(): Middleware {
    (next: Handler) => (env: Envelope) => Outcome(next(env).marks, None)
  }

  /** With such a middleware the broker acknowledges a message the client never acked, here one without an id. */
  lemma SwallowedErrorsInventAcks()
    returns (es: seq<Ack.Event>, s: Ack.State)
    ensures Ack.Run(Ack.INIT, es, s)
    ensures Acknowledged(s, Callback([Swallow()], s), "") == {0} && Ack.PositiveAcks(s, "") == {}
  {
    es := [Ack.Arrive(0, "")];
    s := Ack.Step(Ack.INIT, es[0]);
    assert es[1..] == [];
    assert [Swallow()][1..] == [];
  }
}
