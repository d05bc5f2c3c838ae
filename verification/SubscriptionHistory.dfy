/**
 * What the events of a run say about the streams of SubscriptionRefresh: which streams leave and which
 * come back, what a turn is worth, whose topic a handler is on, and that a stream always gets on when
 * no Refresh call stands in its way.
 */
module SubscriptionHistory {
  import opened Sequences
  import opened SubscriptionRefresh

  lemma {:induction false} LastStep(s: State, es: seq<Event>, t: State) returns (u: State)
    requires es != [] && Run(s, es, t)
    ensures
      var init, e := es[..|es| - 1], es[|es| - 1];
      && Run(s, init, u) && Enabled(u, e) && t == Step(u, e)
      && es == init + [e] && forall x :: x in es <==> x in init || x == e
    decreases |es|
  {
    if |es| == 1 {
      u := s;
    } else {
      u := LastStep(Step(s, es[0]), es[1..], t);
      assert es[..|es| - 1][1..] == es[1..][..|es| - 2];
    }
  }

  lemma {:induction false} RunUpTo(es: seq<Event>, s: State, j: nat) returns (u: State)
    requires Run(INIT, es, s) && j < |es|
    ensures Run(INIT, es[..j], u) && Enabled(u, es[j])
    decreases |es|
  {
    u := LastStep(INIT, es, s);
    if j < |es| - 1 {
      var init := es[..|es| - 1];
      assert init[..j] == es[..j] && init[j] == es[j];
      u := RunUpTo(init, u, j);
    }
  }

  // ---------------------------------------------------------------------------------------------
  // Who leaves

  /** On the way out through a done context. */
  predicate Exiting(s: State, sid: nat) {
    sid in s.streams &&
    s.streams[sid].pc in {Cancelling(true), Closing(true), Removing(Exited), Returned(Exited)}
  }

  lemma ExitingStep(s: State, e: Event, sid: nat)
    requires Enabled(s, e)
    ensures Exiting(Step(s, e), sid) <==> Exiting(s, sid) || e == ContextDone(sid)
  {
    if !Concerns(e, sid) {
      hide Step, Enabled;
      OtherStream(s, e, sid);
    }
  }

  /** A stream is on its way out exactly when its context, or the server's, is done. A refresh sends nobody out. */
  lemma {:induction false} ExitsIff(es: seq<Event>, s: State, sid: nat)
    requires Run(INIT, es, s)
    ensures Exiting(s, sid) <==> ContextDone(sid) in es
    decreases |es|
  {
    hide Step, Enabled;
    if es != [] {
      var u := LastStep(INIT, es, s);
      ExitsIff(es[..|es| - 1], u, sid);
      ExitingStep(u, es[|es| - 1], sid);
    }
  }

  /** Once its context is done, a stream opens no subscription and takes no token. */
  lemma NothingAfterDone(es: seq<Event>, s: State, sid: nat, i: nat, j: nat)
    requires Run(INIT, es, s) && i < j < |es| && es[i] == ContextDone(sid)
    ensures es[j] != Open(sid) && !(es[j].HandToken? && es[j].sid == sid)
  {
    var u := RunUpTo(es, s, j);
    assert es[..j][i] == ContextDone(sid);
    ExitsIff(es[..j], u, sid);
  }

  // ---------------------------------------------------------------------------------------------
  // What a turn is worth

  /** Tokens handed to a stream. */
  function TokensTaken(es: seq<Event>, sid: nat): nat {
    if es == [] then 0
    else
      var e := es[|es| - 1];
      TokensTaken(es[..|es| - 1], sid) + (if e.HandToken? && e.sid == sid then 1 else 0)
  }

  /** The token that ends the current turn has been taken. */
  predicate EndsTurn(st: Stream) {
    st.pc == Cancelling(false) || st.pc == Closing(false)
  }

  function TurnsDone(s: State, sid: nat): nat {
    if sid in s.streams then s.streams[sid].turn + (if EndsTurn(s.streams[sid]) then 1 else 0) else 0
  }

  /** Before its request a stream has had no turn. */
  predicate Fresh(s: State, sid: nat) {
    sid in s.streams && s.streams[sid].pc.Requesting? ==> s.streams[sid].turn == 0
  }

  lemma TurnStep(s: State, e: Event, sid: nat)
    requires Enabled(s, e) && Fresh(s, sid)
    ensures Fresh(Step(s, e), sid)
    ensures TurnsDone(Step(s, e), sid) == TurnsDone(s, sid) + (if e.HandToken? && e.sid == sid then 1 else 0)
  {
    if !Concerns(e, sid) {
      hide Step, Enabled;
      OtherStream(s, e, sid);
    }
  }

  /** A stream has taken one token for every turn behind it, and one more while it closes the current one for it. */
  lemma {:induction false} TurnsAreTokens(es: seq<Event>, s: State, sid: nat)
    requires Run(INIT, es, s)
    ensures Fresh(s, sid)
    ensures if sid in s.streams
            then TokensTaken(es, sid) == s.streams[sid].turn + (if EndsTurn(s.streams[sid]) then 1 else 0)
            else TokensTaken(es, sid) == 0
    decreases |es|
  {
    hide Step, Enabled;
    if es != [] {
      var u := LastStep(INIT, es, s);
      TurnsAreTokens(es[..|es| - 1], u, sid);
      TurnStep(u, es[|es| - 1], sid);
    }
  }

  /** The tokens on record are the ones handed over. */
  lemma {:induction false} TokensAreEvents(es: seq<Event>, s: State, r: nat, sid: nat)
    requires Run(INIT, es, s)
    ensures Token(r, sid) in s.tokens <==> HandToken(r, sid) in es
    decreases |es|
  {
    if es != [] {
      var u := LastStep(INIT, es, s);
      TokensAreEvents(es[..|es| - 1], u, r, sid);
    }
  }

  // ---------------------------------------------------------------------------------------------
  // Whose topic

  /** The stream has had a subscription request for the topic. */
  predicate Requested(s: State, sid: nat, topic: string) {
    && sid in s.streams && s.streams[sid].pc != Requesting && s.streams[sid].pc != Returned(BadRequest)
    && s.streams[sid].topic == topic
  }

  /** A stream that was turned away has no channel to remove. */
  predicate NeverRemovesRejected(s: State, sid: nat) {
    sid in s.streams ==> s.streams[sid].pc != Removing(BadRequest)
  }

  lemma RequestedStep(s: State, e: Event, sid: nat, topic: string)
    requires Enabled(s, e) && NeverRemovesRejected(s, sid)
    ensures NeverRemovesRejected(Step(s, e), sid)
    ensures Requested(Step(s, e), sid, topic) <==> Requested(s, sid, topic) || e == Request(sid, topic)
  {
    if !Concerns(e, sid) {
      hide Step, Enabled;
      OtherStream(s, e, sid);
    }
  }

  /** A stream keeps the topic of its one request. */
  lemma {:induction false} TopicIsRequested(es: seq<Event>, s: State, sid: nat, topic: string)
    requires Run(INIT, es, s)
    ensures Request(sid, topic) in es <==> Requested(s, sid, topic)
    ensures NeverRemovesRejected(s, sid)
    decreases |es|
  {
    hide Step, Enabled;
    if es != [] {
      var u := LastStep(INIT, es, s);
      TopicIsRequested(es[..|es| - 1], u, sid, topic);
      RequestedStep(u, es[|es| - 1], sid, topic);
    }
  }

  /** A handler on the bus is on the topic its stream asked for, and of the turn its tokens say. */
  lemma HandlersWereRequested(es: seq<Event>, s: State, topic: string, sub: Sub)
    requires Run(INIT, es, s) && sub in Handlers(s, topic)
    ensures sub.stream in s.streams && Request(sub.stream, topic) in es
    ensures sub.turn == TokensTaken(es, sub.stream)
         || (sub.turn + 1 == TokensTaken(es, sub.stream) && EndsTurn(s.streams[sub.stream]))
  {
    HandlerCount(es, s, topic, sub);
    TopicIsRequested(es, s, sub.stream, topic);
    TurnsAreTokens(es, s, sub.stream);
  }

  // ---------------------------------------------------------------------------------------------
  // Channels

  predicate OwnChannels(s: State) {
    && (forall a :: a in s.channels ==> s.channels[a] < s.made)
    && (forall a, b :: a in s.channels && b in s.channels && s.channels[a] == s.channels[b] ==> a == b)
  }

  /** No two streams share a refresh channel. */
  lemma {:induction false} ChannelsAreOwn(es: seq<Event>, s: State)
    requires Run(INIT, es, s)
    ensures OwnChannels(s)
    decreases |es|
  {
    if es != [] {
      var u := LastStep(INIT, es, s);
      ChannelsAreOwn(es[..|es| - 1], u);
    }
  }

  // ---------------------------------------------------------------------------------------------
  // Getting on

  lemma Then(s: State, es: seq<Event>, t: State, e: Event)
    requires Run(s, es, t) && Enabled(t, e)
    ensures Run(s, es + [e], Step(t, e))
    decreases |es|
  {
    if es != [] {
      Then(Step(s, es[0]), es[1..], t, e);
      assert (es + [e])[1..] == es[1..] + [e];
    }
  }

  lemma Nothing(s: State)
    ensures Run(s, [], s)
  {
  }

  /** A new stream gets to its select, with a subscription of turn 0 and a channel of its own. */
  lemma StreamGetsReady(s: State, sid: nat, topic: string) returns (es: seq<Event>, t: State)
    requires sid !in s.streams && sid !in s.channels && s.refreshes == map[]
    ensures Run(s, es, t)
    ensures t.streams == s.streams[sid := Stream(topic, 0, Parked(s.made))]
    ensures t.channels == s.channels[sid := s.made]
    ensures Handlers(t, topic) == Handlers(s, topic) + [Sub(sid, 0)]
  {
    hide Run;
    Nothing(s);
    Then(s, [], s, Begin(sid));
    var s1 := Step(s, Begin(sid));
    Then(s, [] + [Begin(sid)], s1, Request(sid, topic));
    var s2 := Step(s1, Request(sid, topic));
    es := [] + [Begin(sid)] + [Request(sid, topic)];
    Then(s, es, s2, Open(sid));
    es := es + [Open(sid)];
    var s3 := Step(s2, Open(sid));
    Then(s, es, s3, Ask(sid));
    es := es + [Ask(sid)];
    t := Step(s3, Ask(sid));
  }

  /** The handler of a finished turn is gone from the bus, and every other one is still there. */
  predicate HandlerMoved(s: State, t: State, sid: nat, added: seq<Sub>)
    requires sid in s.streams
  {
    var st := s.streams[sid];
    Handlers(t, st.topic) == Without(Handlers(s, st.topic), Sub(sid, st.turn)) + added
  }

  /** The stream after its subscription was closed. */
  function Closed(s: State, sid: nat, exit: bool): Stream
    requires sid in s.streams
  {
    var st := s.streams[sid];
    if exit then st.(pc := Removing(Exited)) else st.(pc := Opening, turn := st.turn + 1)
  }

  /** A stream that is done with its select cancels its handlers and closes its subscription. */
  lemma SubscriptionCloses(s: State, sid: nat, exit: bool) returns (es: seq<Event>, t: State)
    requires sid in s.streams && sid in s.logs && s.streams[sid].pc == Cancelling(exit)
    ensures Run(s, es, t) && t.streams == s.streams[sid := Closed(s, sid, exit)]
    ensures t.channels == s.channels && t.refreshes == s.refreshes && sid in t.logs
    ensures HandlerMoved(s, t, sid, [])
  {
    hide Run;
    Nothing(s);
    Then(s, [], s, CancelHandlers(sid));
    es := [] + [CancelHandlers(sid)];
    var s1 := Step(s, CancelHandlers(sid));
    Then(s, es, s1, Close(sid));
    es := es + [Close(sid)];
    t := Step(s1, Close(sid));
    assert t.streams == s.streams[sid := Closed(s, sid, exit)];
  }

  /** A stream at the top of its loop with a channel subscribes and is in its select on that channel. */
  lemma TurnOpens(s: State, sid: nat) returns (es: seq<Event>, t: State)
    requires At(s, sid, Opening) && sid in s.channels && s.refreshes == map[]
    ensures Run(s, es, t) && t.channels == s.channels
    ensures t.streams == s.streams[sid := s.streams[sid].(pc := Parked(s.channels[sid]))]
    ensures Handlers(t, s.streams[sid].topic) ==
            Handlers(s, s.streams[sid].topic) + [Sub(sid, s.streams[sid].turn)]
  {
    hide Run;
    Nothing(s);
    Then(s, [], s, Open(sid));
    es := [] + [Open(sid)];
    var s1 := Step(s, Open(sid));
    Then(s, es, s1, Ask(sid));
    es := es + [Ask(sid)];
    t := Step(s1, Ask(sid));
  }

  lemma {:induction false} RunsJoin(s: State, es: seq<Event>, t: State, fs: seq<Event>, u: State)
    requires Run(s, es, t) && Run(t, fs, u)
    ensures Run(s, es + fs, u)
    decreases |es|
  {
    if es == [] {
      assert es + fs == fs;
    } else {
      assert (es + fs)[1..] == es[1..] + fs;
      RunsJoin(Step(s, es[0]), es[1..], t, fs, u);
    }
  }

  /** A stream that took a token closes its subscription, opens the next and is back in its select on the same channel. */
  lemma RefreshedStreamComesBack(s: State, sid: nat) returns (es: seq<Event>, t: State)
    requires sid in s.streams && sid in s.logs && s.streams[sid].pc == Cancelling(false)
    requires sid in s.channels && s.refreshes == map[]
    ensures Run(s, es, t) && t.channels == s.channels
    ensures t.streams == s.streams[sid := Stream(s.streams[sid].topic, s.streams[sid].turn + 1, Parked(s.channels[sid]))]
    ensures HandlerMoved(s, t, sid, [Sub(sid, s.streams[sid].turn + 1)])
  {
    hide Run, Handlers;
    var first, u := SubscriptionCloses(s, sid, false);
    var rest;
    rest, t := TurnOpens(u, sid);
    RunsJoin(s, first, u, rest, t);
    es := first + rest;
    assert t.streams == s.streams[sid := Stream(s.streams[sid].topic, s.streams[sid].turn + 1, Parked(s.channels[sid]))];
  }

  /** A stream whose context is done closes its subscription and returns, and its channel is gone. */
  lemma DoneStreamLeaves(s: State, sid: nat) returns (es: seq<Event>, t: State)
    requires sid in s.streams && sid in s.logs && s.streams[sid].pc == Cancelling(true) && s.refreshes == map[]
    ensures Run(s, es, t) && t.channels == s.channels - {sid}
    ensures t.streams == s.streams[sid := s.streams[sid].(pc := Returned(Exited))]
    ensures HandlerMoved(s, t, sid, [])
  {
    hide Run;
    var u;
    es, u := SubscriptionCloses(s, sid, true);
    Then(s, es, u, Remove(sid));
    es := es + [Remove(sid)];
    t := Step(u, Remove(sid));
  }

  /** A stream whose subscription cannot be opened returns, and its channel is gone. */
  lemma FailedOpenLeaves(s: State, sid: nat) returns (es: seq<Event>, t: State)
    requires At(s, sid, Opening) && s.refreshes == map[]
    ensures Run(s, es, t) && t.channels == s.channels - {sid} && t.bus == s.bus
    ensures t.streams == s.streams[sid := s.streams[sid].(pc := Returned(OpenFailed))]
  {
    hide Run;
    Nothing(s);
    Then(s, [], s, OpenFail(sid));
    es := [] + [OpenFail(sid)];
    var s1 := Step(s, OpenFail(sid));
    Then(s, es, s1, Remove(sid));
    es := es + [Remove(sid)];
    t := Step(s1, Remove(sid));
  }

  /** A stream whose first message is no subscription request returns, and nothing else changes. */
  lemma BadRequestLeaves(s: State, sid: nat) returns (es: seq<Event>, t: State)
    requires At(s, sid, Requesting)
    ensures Run(s, es, t) && t == s.(streams := s.streams[sid := s.streams[sid].(pc := Returned(BadRequest))])
  {
    Nothing(s);
    Then(s, [], s, Reject(sid));
    es, t := [] + [Reject(sid)], Step(s, Reject(sid));
  }
}
