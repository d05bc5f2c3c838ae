/**
 * Middleware pipelines (pkg/messaging/pipeline.go) and the subscriber service that builds one around
 * every client handler (pkg/runtime/service/subscriber.go).
 */
module Pipeline {
  import opened Wrappers

  /** A handler's visible behaviour: the marks it leaves, in order, and the error it returns. */
  datatype Mark = Enter(name: string) | Exit(name: string) | Work(name: string)
  datatype Outcome = Outcome(marks: seq<Mark>, error: Option<string>)

  /** A message as it is delivered: the same message id can be delivered again. */
  datatype Envelope = Envelope(delivery: nat, id: string)

  type Handler = Envelope -> Outcome
  type Middleware = Handler -> Handler

  /** The first middleware wraps all the others. */
  function Nest(middlewares: seq<Middleware>, handler: Handler): Handler {
    if middlewares == [] then handler else middlewares[0](Nest(middlewares[1..], handler))
  }

  /** Pipeline.Build, with the source's downward loop. */
  method Build(middlewares: seq<Middleware>, handler: Handler) returns (built: Handler)
    ensures built == Nest(middlewares, handler)
  {
    built := handler;
    var i := |middlewares| - 1;
    while i >= 0
      invariant -1 <= i < |middlewares|
      invariant built == Nest(middlewares[i + 1..], handler)
    {
      assert middlewares[i..][1..] == middlewares[i + 1..];
      built := middlewares[i](built);
      i := i - 1;
    }
  }

  /** Building a longer pipeline is building its back part inside its front part. */
  lemma {:induction false} NestConcat(a: seq<Middleware>, b: seq<Middleware>, handler: Handler)
    ensures Nest(a + b, handler) == Nest(a, Nest(b, handler))
  {
    if a == [] {
      assert a + b == b;
    } else {
      assert (a + b)[1..] == a[1..] + b;
      NestConcat(a[1..], b, handler);
    }
  }

  lemma NestTwo(a: Middleware, b: Middleware, handler: Handler)
    ensures Nest([a, b], handler) == a(b(handler))
  {
    assert [a, b][1..] == [b] && [b][1..] == [];
    assert Nest([b], handler) == b(Nest([b][1..], handler));
  }

  // ---------------------------------------------------------------------------------------------
  // Order and errors

  /** A middleware that leaves marks on its way in and on its way out, and calls the next handler between them. */
  datatype Layer = Layer(middleware: Middleware, before: Envelope -> seq<Mark>, after: Envelope -> seq<Mark>)

  ghost predicate Surrounds(l: Layer) {
    forall next: Handler, env: Envelope ::
      l.middleware(next)(env).marks == l.before(env) + next(env).marks + l.after(env)
  }

  function Middlewares(layers: seq<Layer>): (r: seq<Middleware>)
    ensures |r| == |layers| && forall i :: 0 <= i < |layers| ==> r[i] == layers[i].middleware
  {
    if layers == [] then [] else [layers[0].middleware] + Middlewares(layers[1..])
  }

  /** The ways in, in registration order. */
  function WaysIn(layers: seq<Layer>, env: Envelope): seq<Mark> {
    if layers == [] then [] else layers[0].before(env) + WaysIn(layers[1..], env)
  }

  /** The ways out, in reverse order. */
  function WaysOut(layers: seq<Layer>, env: Envelope): seq<Mark> {
    if layers == [] then [] else WaysOut(layers[1..], env) + layers[0].after(env)
  }

  lemma Regroup(a: seq<Mark>, b: seq<Mark>, m: seq<Mark>, c: seq<Mark>, d: seq<Mark>)
    ensures a + (b + m + c) + d == (a + b) + m + (c + d)
  {
  }

  /** All the ways in, in registration order, then the handler, then all the ways out in reverse. */
  lemma {:induction false} WellNested(layers: seq<Layer>, handler: Handler, env: Envelope)
    requires forall l :: l in layers ==> Surrounds(l)
    ensures Nest(Middlewares(layers), handler)(env).marks ==
            WaysIn(layers, env) + handler(env).marks + WaysOut(layers, env)
  {
    var m := handler(env).marks;
    if layers == [] {
      assert [] + m + [] == m;
    } else {
      var l, rest := layers[0], layers[1..];
      assert Middlewares(layers)[1..] == Middlewares(rest);
      WellNested(rest, handler, env);
      assert Surrounds(l);
      Regroup(l.before(env), WaysIn(rest, env), m, WaysOut(rest, env), l.after(env));
    }
  }

  /** The middleware returns whatever error the handler inside it returned. */
  ghost predicate PassesErrors(m: Middleware) {
    forall next: Handler, env: Envelope :: m(next)(env).error == next(env).error
  }

  /** A pipeline of middlewares that pass errors on returns the error of the handler inside. */
  lemma {:induction false} PipelinePassesErrors(middlewares: seq<Middleware>, handler: Handler, env: Envelope)
    requires forall m :: m in middlewares ==> PassesErrors(m)
    ensures Nest(middlewares, handler)(env).error == handler(env).error
  {
    if middlewares != [] {
      PipelinePassesErrors(middlewares[1..], handler, env);
      assert PassesErrors(middlewares[0]);
    }
  }

  // ---------------------------------------------------------------------------------------------
  // The subscriber service

  const METRICS := "metrics"
  const TRACING := "tracing"

  /** What the two built-in middlewares do to a message: they mark it and pass the error on. */
  function Around(name: string): Middleware {
    (next: Handler) => (env: Envelope) => var r := next(env); Outcome([Enter(name)] + r.marks + [Exit(name)], r.error)
  }

  class SubscriberService {
    var middlewares: seq<Middleware>

    constructor (middlewares: seq<Middleware>)
      ensures this.middlewares == middlewares
    {
      this.middlewares := middlewares;
    }

    method UseMiddleware(middleware: Middleware)
      modifies this
      ensures middlewares == old(middlewares) + [middleware]
    {
      middlewares := middlewares + [middleware];
    }

    /** StartSubscribing hands the broker this callback. It adds its two middlewares on every call. */
    method StartSubscribing(handler: Handler) returns (callback: Handler)
      modifies this
      ensures middlewares == old(middlewares) + [Around(METRICS), Around(TRACING)]
      ensures callback == Nest(old(middlewares), Around(METRICS)(Around(TRACING)(handler)))
    {
      ghost var user := middlewares;
      UseMiddleware(Around(METRICS));
      UseMiddleware(Around(TRACING));
      callback := Build(middlewares, handler);
      NestTwo(Around(METRICS), Around(TRACING), handler);
      NestConcat(user, [Around(METRICS), Around(TRACING)], handler);
      assert middlewares == user + [Around(METRICS), Around(TRACING)];
    }
  }

  lemma InnerMarks(handler: Handler, env: Envelope)
    ensures
      var r := Around(METRICS)(Around(TRACING)(handler))(env);
      && r.marks == [Enter(METRICS), Enter(TRACING)] + handler(env).marks + [Exit(TRACING), Exit(METRICS)]
      && r.error == handler(env).error
  {
  }

  /** Whatever the user's middlewares are: if they pass errors on, the broker callback sees the client handler's error. */
  lemma CallbackError(user: seq<Middleware>, handler: Handler, env: Envelope)
    requires forall m :: m in user ==> PassesErrors(m)
    ensures Nest(user, Around(METRICS)(Around(TRACING)(handler)))(env).error == handler(env).error
  {
    InnerMarks(handler, env);
    PipelinePassesErrors(user, Around(METRICS)(Around(TRACING)(handler)), env);
  }

  /**
   * What a message meets: the user's middlewares in their order, then metrics, then tracing, then the
   * client handler, and back. This is for all middlewares that call the next handler once, whatever
   * they do before and after, and whether they pass its error on or not.
   */
  lemma SubscriberOrder(user: seq<Layer>, handler: Handler, env: Envelope)
    requires forall l :: l in user ==> Surrounds(l)
    ensures Nest(Middlewares(user), Around(METRICS)(Around(TRACING)(handler)))(env).marks ==
            WaysIn(user, env) + ([Enter(METRICS), Enter(TRACING)] + handler(env).marks
                                 + [Exit(TRACING), Exit(METRICS)]) + WaysOut(user, env)
  {
    hide Surrounds, Around;
    InnerMarks(handler, env);
    WellNested(user, Around(METRICS)(Around(TRACING)(handler)), env);
  }
}
