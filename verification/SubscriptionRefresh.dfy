/**
 * Subscriptions of gRPC streams and their refresh (pkg/api/runtime/grpc/grpc_api.go, Subscribe,
 * Refresh, getRefreshChan and removeRefreshChan, over the in-memory bus of
 * pkg/messaging/inmemory.go): any number of streams, each looping over subscribe, wait and
 * unsubscribe, and any number of Refresh calls that hold the read lock while they hand one token
 * to every registered stream.
 */
module SubscriptionRefresh {
  import opened Sequences

  /** How Subscribe comes to an end. */
  datatype Ending = BadRequest | OpenFailed | Exited

  /** Where a stream's Subscribe call is. */
  datatype Pc =
    | Requesting                 // waiting for the subscription request
    | Opening                    // top of the loop, about to subscribe
    | Asking                     // subscribed, about to ask for its refresh channel
    | Parked(chan: nat)          // in its select, on this refresh channel
    | Cancelling(exit: bool)     // about to cancel the handler context
    | Closing(exit: bool)        // about to close the subscription
    | Removing(ending: Ending)   // about to remove its refresh channel
    | Returned(ending: Ending)

  /** turn counts the loop's turns: subscription number turn is opened in it. */
  datatype Stream = Stream(topic: string, turn: nat, pc: Pc)

  datatype LifeEvent = Opened(turn: nat) | Cancelled(turn: nat) | Closed(turn: nat)

  /** One handler on the bus: the subscription a stream opened in a turn. */
  datatype Sub = Sub(stream: nat, turn: nat)

  datatype Token = Token(refresh: nat, stream: nat)

  datatype State = State(
    streams: map<nat, Stream>,
    logs: map<nat, seq<LifeEvent>>,       // what happened to each stream's subscriptions
    bus: map<string, seq<Sub>>,           // handlers per topic
    channels: map<nat, nat>,              // refreshChannels: stream to channel
    made: nat,                            // channels made so far
    refreshes: map<nat, set<nat>>,        // Refresh calls holding the read lock: streams still to be served
    targets: map<nat, set<nat>>,          // streams registered when a Refresh call took the lock
    tokens: multiset<Token>)              // tokens handed over

  const INIT := State(map[], map[], map[], map[], 0, map[], map[], multiset{})

  function Handlers(s: State, topic: string): seq<Sub> {
    if topic in s.bus then s.bus[topic] else []
  }

  predicate WriteLockFree(s: State) {
    s.refreshes == map[]
  }

  datatype Event =
    | Begin(sid: nat)
    | Request(sid: nat, topic: string)
    | Reject(sid: nat)
    | Open(sid: nat)
    | OpenFail(sid: nat)
    | Ask(sid: nat)
    | ContextDone(sid: nat)
    | HandToken(r: nat, sid: nat)
    | CancelHandlers(sid: nat)
    | Close(sid: nat)
    | Remove(sid: nat)
    | StartRefresh(r: nat)
    | EndRefresh(r: nat)

  predicate At(s: State, sid: nat, pc: Pc) {
    sid in s.streams && sid in s.logs && s.streams[sid].pc == pc
  }

  predicate IsParked(s: State, sid: nat) {
    sid in s.streams && sid in s.logs && s.streams[sid].pc.Parked?
  }

  predicate Enabled(s: State, e: Event) {
    match e
    case Begin(sid) => sid !in s.streams
    case Request(sid, _) => At(s, sid, Requesting)
    case Reject(sid) => At(s, sid, Requesting)
    case Open(sid) => At(s, sid, Opening)
    case OpenFail(sid) => At(s, sid, Opening)
    case Ask(sid) => At(s, sid, Asking) && WriteLockFree(s)
    case ContextDone(sid) => IsParked(s, sid)
    case HandToken(r, sid) =>
      && r in s.refreshes && sid in s.refreshes[r]
      && IsParked(s, sid) && sid in s.channels && s.streams[sid].pc.chan == s.channels[sid]
    case CancelHandlers(sid) => sid in s.streams && sid in s.logs && s.streams[sid].pc.Cancelling?
    case Close(sid) => sid in s.streams && sid in s.logs && s.streams[sid].pc.Closing?
    case Remove(sid) => sid in s.streams && sid in s.logs && s.streams[sid].pc.Removing? && WriteLockFree(s)
    case StartRefresh(r) => r !in s.targets
    case EndRefresh(r) => r in s.refreshes && s.refreshes[r] == {}
  }

  function Move(s: State, sid: nat, pc: Pc): State
    requires sid in s.streams
  {
    s.(streams := s.streams[sid := s.streams[sid].(pc := pc)])
  }

  function Note(s: State, sid: nat, e: LifeEvent): State
    requires sid in s.logs
  {
    s.(logs := s.logs[sid := s.logs[sid] + [e]])
  }

  function Step(s: State, e: Event): State
    requires Enabled(s, e)
  {
    match e
    case Begin(sid) => s.(streams := s.streams[sid := Stream("", 0, Requesting)], logs := s.logs[sid := []])
    case Request(sid, topic) => s.(streams := s.streams[sid := Stream(topic, 0, Opening)])
    case Reject(sid) => Move(s, sid, Returned(BadRequest))
    case Open(sid) =>
      var st := s.streams[sid];
      Note(Move(s, sid, Asking), sid, Opened(st.turn))
        .(bus := s.bus[st.topic := Handlers(s, st.topic) + [Sub(sid, st.turn)]])
    case OpenFail(sid) => Note(Move(s, sid, Removing(OpenFailed)), sid, Cancelled(s.streams[sid].turn))
    case Ask(sid) =>
      if sid in s.channels then Move(s, sid, Parked(s.channels[sid]))
      else Move(s, sid, Parked(s.made)).(channels := s.channels[sid := s.made], made := s.made + 1)
    case ContextDone(sid) => Move(s, sid, Cancelling(true))
    case HandToken(r, sid) =>
      Move(s, sid, Cancelling(false))
        .(refreshes := s.refreshes[r := s.refreshes[r] - {sid}], tokens := s.tokens + multiset{Token(r, sid)})
    case CancelHandlers(sid) =>
      Note(Move(s, sid, Closing(s.streams[sid].pc.exit)), sid, Cancelled(s.streams[sid].turn))
    case Close(sid) =>
      var st := s.streams[sid];
      var next := if st.pc.exit then st.(pc := Removing(Exited)) else st.(pc := Opening, turn := st.turn + 1);
      Note(s, sid, Closed(st.turn))
        .(streams := s.streams[sid := next],
          bus := s.bus[st.topic := Without(Handlers(s, st.topic), Sub(sid, st.turn))])
    case Remove(sid) => Move(s, sid, Returned(s.streams[sid].pc.ending)).(channels := s.channels - {sid})
    case StartRefresh(r) =>
      s.(refreshes := s.refreshes[r := s.channels.Keys], targets := s.targets[r := s.channels.Keys])
    case EndRefresh(r) => s.(refreshes := s.refreshes - {r})
  }

  ghost predicate Run(s: State, es: seq<Event>, t: State)
    decreases |es|
  {
    if es == [] then s == t else Enabled(s, es[0]) && Run(Step(s, es[0]), es[1..], t)
  }

  // ---------------------------------------------------------------------------------------------
  // The invariant

  /** n whole turns: each opened, then its context cancelled, then closed, before the next opens. */
  function Turns(n: nat): seq<LifeEvent> {
    if n == 0 then [] else Turns(n - 1) + [Opened(n - 1), Cancelled(n - 1), Closed(n - 1)]
  }

  function EndLog(turn: nat, ending: Ending): seq<LifeEvent> {
    match ending
    case BadRequest => []
    case OpenFailed => Turns(turn) + [Cancelled(turn)]
    case Exited => Turns(turn + 1)
  }

  /** The only log a stream can have at its place. */
  function LogAt(st: Stream): seq<LifeEvent> {
    match st.pc
    case Requesting => []
    case Opening => Turns(st.turn)
    case Asking => Turns(st.turn) + [Opened(st.turn)]
    case Parked(_) => Turns(st.turn) + [Opened(st.turn)]
    case Cancelling(_) => Turns(st.turn) + [Opened(st.turn)]
    case Closing(_) => Turns(st.turn) + [Opened(st.turn), Cancelled(st.turn)]
    case Removing(e) => EndLog(st.turn, e)
    case Returned(e) => EndLog(st.turn, e)
  }

  /** The stream has an open subscription. */
  predicate Live(st: Stream) {
    st.pc.Asking? || st.pc.Parked? || st.pc.Cancelling? || st.pc.Closing?
  }

  predicate Owns(s: State, topic: string, sub: Sub) {
    sub.stream in s.streams && Live(s.streams[sub.stream])
    && s.streams[sub.stream].topic == topic && s.streams[sub.stream].turn == sub.turn
  }

  /** The streams currently subscribed to a topic. */
  function Subscribed(s: State, topic: string): set<nat> {
    set sid | sid in s.streams && Live(s.streams[sid]) && s.streams[sid].topic == topic
  }

  predicate SubInv(s: State, topic: string, sub: Sub) {
    multiset(Handlers(s, topic))[sub] == if Owns(s, topic, sub) then 1 else 0
  }

  predicate StreamInv(s: State, sid: nat) {
    (sid in s.channels ==> sid in s.streams) &&
    (sid in s.streams ==>
      var st := s.streams[sid];
      && sid in s.logs && s.logs[sid] == LogAt(st)
      && (st.pc.Parked? ==> sid in s.channels && s.channels[sid] == st.pc.chan)
      && (st.pc.Cancelling? || st.pc.Closing? || st.turn > 0 ==> sid in s.channels || st.pc.Returned?)
      && (st.pc.Requesting? || st.pc.Returned? ==> sid !in s.channels))
  }

  predicate RefreshInv(s: State, r: nat) {
    && (r in s.refreshes ==> r in s.targets && s.refreshes[r] <= s.targets[r] && s.refreshes[r] <= s.channels.Keys)
  }

  /** A stream has its token of a Refresh call, or the call still owes it, or it was not registered. */
  predicate TokenInv(s: State, r: nat, sid: nat) {
    s.tokens[Token(r, sid)] ==
    if r in s.targets && sid in s.targets[r] && !(r in s.refreshes && sid in s.refreshes[r]) then 1 else 0
  }

  ghost predicate Inv(s: State) {
    && (forall sid :: StreamInv(s, sid))
    && (forall topic, sub :: SubInv(s, topic, sub))
    && (forall topic :: |Handlers(s, topic)| == |Subscribed(s, topic)|)
    && (forall r :: RefreshInv(s, r))
    && (forall r, sid :: TokenInv(s, r, sid))
  }

  /** The event is a step of this stream, or hands it a token. */
  predicate Concerns(e: Event, sid: nat) {
    !e.StartRefresh? && !e.EndRefresh? && e.sid == sid
  }

  lemma OtherStream(s: State, e: Event, sid: nat)
    requires Enabled(s, e) && !Concerns(e, sid)
    ensures
      var t := Step(s, e);
      && (sid in t.streams <==> sid in s.streams) && (sid in s.streams ==> t.streams[sid] == s.streams[sid])
      && (sid in t.logs <==> sid in s.logs) && (sid in s.logs ==> t.logs[sid] == s.logs[sid])
      && (sid in t.channels <==> sid in s.channels) && (sid in s.channels ==> t.channels[sid] == s.channels[sid])
  {
  }

  lemma TurnSteps(n: nat)
    ensures Turns(0) == []
    ensures Turns(n) + [Opened(n)] + [Cancelled(n)] == Turns(n) + [Opened(n), Cancelled(n)]
    ensures Turns(n) + [Opened(n), Cancelled(n)] + [Closed(n)] == Turns(n + 1)
  {
  }

  lemma StreamKeptOutside(s: State, e: Event)
    requires e.Begin? || e.Request? || e.Reject? || e.OpenFail? || e.Remove?
    requires Enabled(s, e) && StreamInv(s, e.sid)
    ensures StreamInv(Step(s, e), e.sid)
  {
    hide Turns;
    TurnSteps(0);
  }

  lemma StreamKeptInTurn(s: State, e: Event)
    requires e.Open? || e.Ask? || e.ContextDone? || e.HandToken?
    requires Enabled(s, e) && StreamInv(s, e.sid)
    ensures StreamInv(Step(s, e), e.sid)
  {
    hide Turns;
  }

  lemma StreamKeptEnding(s: State, e: Event)
    requires e.CancelHandlers? || e.Close?
    requires Enabled(s, e) && StreamInv(s, e.sid)
    ensures StreamInv(Step(s, e), e.sid)
  {
    hide Turns;
    TurnSteps(s.streams[e.sid].turn);
  }

  lemma StreamKept(s: State, e: Event, sid: nat)
    requires StreamInv(s, sid) && Enabled(s, e)
    ensures StreamInv(Step(s, e), sid)
  {
    hide Step, Enabled, LogAt;
    if !Concerns(e, sid) {
      OtherStream(s, e, sid);
    } else if e.CancelHandlers? || e.Close? {
      StreamKeptEnding(s, e);
    } else if e.Open? || e.Ask? || e.ContextDone? || e.HandToken? {
      StreamKeptInTurn(s, e);
    } else {
      StreamKeptOutside(s, e);
    }
  }

  /** Only opening and closing change who is subscribed, and only for one stream. */
  lemma LiveKept(s: State, e: Event, sid: nat)
    requires Enabled(s, e) && !((e.Open? || e.Close?) && e.sid == sid)
    ensures
      var t := Step(s, e);
      if sid in s.streams && Live(s.streams[sid]) then
        sid in t.streams && Live(t.streams[sid])
        && t.streams[sid].topic == s.streams[sid].topic && t.streams[sid].turn == s.streams[sid].turn
      else !(sid in t.streams && Live(t.streams[sid]))
  {
  }

  lemma OpenClose(s: State, e: Event)
    requires Enabled(s, e) && (e.Open? || e.Close?)
    ensures
      var t, st := Step(s, e), s.streams[e.sid];
      && (if e.Open? then !Live(st) && Live(t.streams[e.sid]) else Live(st) && !Live(t.streams[e.sid]))
      && t.streams[e.sid].topic == st.topic
      && (e.Open? ==> t.streams[e.sid].turn == st.turn)
      && forall topic ::
           Handlers(t, topic) == if topic != st.topic then Handlers(s, topic)
                                 else if e.Open? then Handlers(s, topic) + [Sub(e.sid, st.turn)]
                                 else Without(Handlers(s, topic), Sub(e.sid, st.turn))
  {
  }

  lemma BusKept(s: State, e: Event)
    requires Enabled(s, e) && !e.Open? && !e.Close?
    ensures Step(s, e).bus == s.bus
  {
  }

  lemma SameHandlers(s: State, t: State, topic: string)
    requires t.bus == s.bus
    ensures Handlers(t, topic) == Handlers(s, topic)
  {
  }

  lemma OwnStream(s: State, e: Event)
    requires Enabled(s, e) && (e.Open? || e.Close?)
    ensures e.sid in s.streams && e.sid in Step(s, e).streams
  {
  }

  lemma SubKept(s: State, e: Event, topic: string, sub: Sub)
    requires SubInv(s, topic, sub) && Enabled(s, e)
    ensures SubInv(Step(s, e), topic, sub)
  {
    hide Step, Live, Enabled, Handlers;
    if e.Open? || e.Close? {
      OpenClose(s, e);
      if sub.stream != e.sid {
        LiveKept(s, e, sub.stream);
      }
      OwnStream(s, e);
      var own := Sub(e.sid, s.streams[e.sid].turn);
      if e.Close? && sub != own {
        WithoutKeepsOthers(Handlers(s, topic), own, sub);
      }
    } else {
      BusKept(s, e);
      SameHandlers(s, Step(s, e), topic);
      LiveKept(s, e, sub.stream);
    }
  }

  lemma ClosedSubCount(s: State, e: Event, topic: string)
    requires Enabled(s, e) && e.Close? && s.streams[e.sid].topic == topic
    requires SubInv(s, topic, Sub(e.sid, s.streams[e.sid].turn))
    ensures multiset(Handlers(s, topic))[Sub(e.sid, s.streams[e.sid].turn)] == 1
  {
  }

  lemma CountKept(s: State, e: Event, topic: string)
    requires |Handlers(s, topic)| == |Subscribed(s, topic)| && Enabled(s, e)
    requires forall sub :: SubInv(s, topic, sub)
    ensures |Handlers(Step(s, e), topic)| == |Subscribed(Step(s, e), topic)|
  {
    hide Step, Live, Enabled, Handlers, SubInv;
    var t := Step(s, e);
    forall sid | !((e.Open? || e.Close?) && e.sid == sid)
      ensures sid in Subscribed(t, topic) <==> sid in Subscribed(s, topic)
    {
      LiveKept(s, e, sid);
    }
    if e.Open? || e.Close? {
      OpenClose(s, e);
      OwnStream(s, e);
      if s.streams[e.sid].topic != topic {
        assert Subscribed(t, topic) == Subscribed(s, topic);
      } else if e.Open? {
        assert Subscribed(t, topic) == Subscribed(s, topic) + {e.sid};
      } else {
        assert Subscribed(t, topic) == Subscribed(s, topic) - {e.sid};
        ClosedSubCount(s, e, topic);
      }
    } else {
      BusKept(s, e);
      SameHandlers(s, t, topic);
      assert Subscribed(t, topic) == Subscribed(s, topic);
    }
  }

  lemma RefreshKept(s: State, e: Event, r: nat)
    requires RefreshInv(s, r) && Enabled(s, e)
    ensures RefreshInv(Step(s, e), r)
  {
  }

  lemma TokenKept(s: State, e: Event, r: nat, sid: nat)
    requires TokenInv(s, r, sid) && RefreshInv(s, r) && Enabled(s, e)
    ensures TokenInv(Step(s, e), r, sid)
  {
  }

  lemma StepKeepsInv(s: State, e: Event)
    requires Inv(s) && Enabled(s, e)
    ensures Inv(Step(s, e))
  {
    hide Step, Enabled, StreamInv, SubInv, RefreshInv, TokenInv, Handlers, Subscribed;
    var t := Step(s, e);
    forall sid ensures StreamInv(t, sid) {
      StreamKept(s, e, sid);
    }
    forall topic, sub ensures SubInv(t, topic, sub) {
      SubKept(s, e, topic, sub);
    }
    forall topic ensures |Handlers(t, topic)| == |Subscribed(t, topic)| {
      CountKept(s, e, topic);
    }
    forall r ensures RefreshInv(t, r) {
      RefreshKept(s, e, r);
    }
    forall r, sid ensures TokenInv(t, r, sid) {
      TokenKept(s, e, r, sid);
    }
  }

  lemma {:induction false} RunKeepsInv(s: State, es: seq<Event>, t: State)
    requires Inv(s) && Run(s, es, t)
    ensures Inv(t)
    decreases |es|
  {
    if es != [] {
      StepKeepsInv(s, es[0]);
      RunKeepsInv(Step(s, es[0]), es[1..], t);
    }
  }

  // ---------------------------------------------------------------------------------------------
  // Subscription balance

  lemma {:induction false} TurnsInOrder(n: nat, k: nat)
    requires k < n
    ensures |Turns(n)| == 3 * n
    ensures Turns(n)[3 * k] == Opened(k) && Turns(n)[3 * k + 1] == Cancelled(k) && Turns(n)[3 * k + 2] == Closed(k)
  {
    if n == 1 {
      assert Turns(0) == [];
    } else {
      TurnsInOrder(n - 1, if k < n - 1 then k else 0);
    }
  }

  /**
   * After any run, a stream's log is its finished turns followed by what its current turn has done so
   * far: one live subscription at most, its context cancelled before it is closed and before the next
   * one opens. A Subscribe call that returned after its loop has closed everything it opened.
   */
  lemma SubscriptionBalance(es: seq<Event>, s: State, sid: nat)
    requires Run(INIT, es, s) && sid in s.streams
    ensures sid in s.logs && s.logs[sid] == LogAt(s.streams[sid])
    ensures s.streams[sid].pc == Returned(Exited) ==> s.logs[sid] == Turns(s.streams[sid].turn + 1)
    ensures s.streams[sid].pc.Returned? ==> sid !in s.channels
  {
    RunKeepsInv(INIT, es, s);
    assert StreamInv(s, sid);
  }

  /** The bus holds exactly one handler for each stream subscribed to a topic, and no other. */
  lemma HandlerCount(es: seq<Event>, s: State, topic: string, sub: Sub)
    requires Run(INIT, es, s)
    ensures |Handlers(s, topic)| == |Subscribed(s, topic)|
    ensures multiset(Handlers(s, topic))[sub] == if Owns(s, topic, sub) then 1 else 0
  {
    RunKeepsInv(INIT, es, s);
    assert SubInv(s, topic, sub);
  }

  lemma ReturnedStep(s: State, e: Event, sid: nat)
    requires Enabled(s, e) && sid in s.streams && s.streams[sid].pc.Returned? && sid !in s.channels
    ensures
      var t := Step(s, e);
      sid in t.streams && t.streams[sid].pc.Returned? && sid !in t.channels
  {
    if !Concerns(e, sid) {
      hide Step, Enabled;
      OtherStream(s, e, sid);
    }
  }

  lemma {:induction false} ReturnedForEver(s: State, es: seq<Event>, t: State, sid: nat)
    requires Run(s, es, t) && sid in s.streams && s.streams[sid].pc.Returned? && sid !in s.channels
    ensures sid in t.streams && t.streams[sid].pc.Returned? && sid !in t.channels
    decreases |es|
  {
    if es != [] {
      hide Step, Enabled;
      ReturnedStep(s, es[0], sid);
      ReturnedForEver(Step(s, es[0]), es[1..], t, sid);
    }
  }

  /** A stream keeps its refresh channel until it is removed, which happens only on its way out. */
  lemma {:induction false} ChannelKept(s: State, es: seq<Event>, t: State, sid: nat)
    requires Inv(s) && Run(s, es, t) && sid in s.channels
    ensures sid in t.streams
    ensures if sid in t.channels then t.channels[sid] == s.channels[sid] else t.streams[sid].pc.Returned?
    decreases |es|
  {
    assert StreamInv(s, sid);
    if es != [] {
      var u := Step(s, es[0]);
      StepKeepsInv(s, es[0]);
      if sid in u.channels {
        ChannelKept(u, es[1..], t, sid);
      } else {
        ReturnedForEver(u, es[1..], t, sid);
      }
    }
  }

  // ---------------------------------------------------------------------------------------------
  // Refresh

  /** A Refresh call that came back gave one token to every stream registered when it started, and no other. */
  lemma RefreshHitsEveryoneOnce(es: seq<Event>, s: State, r: nat, sid: nat)
    requires Run(INIT, es, s) && r in s.targets && r !in s.refreshes
    ensures s.tokens[Token(r, sid)] == if sid in s.targets[r] then 1 else 0
  {
    RunKeepsInv(INIT, es, s);
    assert TokenInv(s, r, sid);
  }

  /** Every registered stream waits in its select. */
  predicate AllParked(s: State) {
    forall sid :: sid in s.channels ==> IsParked(s, sid)
  }

  /** Every stream the call still owes a token waits in its select. */
  predicate PendingParked(s: State, r: nat) {
    r in s.refreshes ==> forall sid :: sid in s.refreshes[r] ==> IsParked(s, sid)
  }

  ghost predicate CanReturn(s: State, r: nat) {
    exists es, t :: Run(s, es, t) && r !in t.refreshes
  }

  lemma BlockedStep(s: State, e: Event, r: nat, sid: nat)
    requires Enabled(s, e) && r in s.targets && r in s.refreshes && sid in s.refreshes[r] && !IsParked(s, sid)
    ensures
      var t := Step(s, e);
      r in t.targets && r in t.refreshes && sid in t.refreshes[r] && !IsParked(t, sid)
  {
  }

  /**
   * A stream that is owed a token but is not in its select needs the write lock to get back there,
   * and the call holds the read lock: neither ever moves on.
   */
  lemma {:induction false} BlockedForEver(s: State, es: seq<Event>, t: State, r: nat, sid: nat)
    requires Run(s, es, t) && r in s.targets && r in s.refreshes && sid in s.refreshes[r] && !IsParked(s, sid)
    ensures r in t.refreshes && sid in t.refreshes[r] && !IsParked(t, sid)
    decreases |es|
  {
    if es != [] {
      BlockedStep(s, es[0], r, sid);
      BlockedForEver(Step(s, es[0]), es[1..], t, r, sid);
    }
  }

  lemma Prepend(s: State, e: Event, es: seq<Event>, t: State)
    requires Enabled(s, e) && Run(Step(s, e), es, t)
    ensures Run(s, [e] + es, t)
  {
    assert ([e] + es)[1..] == es;
  }

  lemma TokenIsEnabled(s: State, r: nat, sid: nat)
    requires Inv(s) && r in s.refreshes && sid in s.refreshes[r] && IsParked(s, sid)
    ensures Enabled(s, HandToken(r, sid))
  {
    assert StreamInv(s, sid) && RefreshInv(s, r);
  }

  lemma {:induction false} ServeAll(s: State, r: nat) returns (es: seq<Event>, t: State)
    requires Inv(s) && r in s.refreshes && PendingParked(s, r)
    ensures Run(s, es, t) && r !in t.refreshes
    decreases |if r in s.refreshes then s.refreshes[r] else {}|
  {
    if s.refreshes[r] == {} {
      t := Step(s, EndRefresh(r));
      Prepend(s, EndRefresh(r), [], t);
      es := [EndRefresh(r)] + [];
    } else {
      var sid :| sid in s.refreshes[r];
      TokenIsEnabled(s, r, sid);
      var e := HandToken(r, sid);
      var u := Step(s, e);
      StepKeepsInv(s, e);
      assert u.refreshes[r] == s.refreshes[r] - {sid};
      es, t := ServeAll(u, r);
      Prepend(s, e, es, t);
      es := [e] + es;
    }
  }

  /** A Refresh call can come back exactly when every stream registered at its start is in its select. */
  lemma RefreshReturnsIff(es: seq<Event>, s: State, r: nat)
    requires Run(INIT, es, s) && r !in s.targets
    ensures Enabled(s, StartRefresh(r))
    ensures CanReturn(Step(s, StartRefresh(r)), r) <==> AllParked(s)
  {
    RunKeepsInv(INIT, es, s);
    var u := Step(s, StartRefresh(r));
    StepKeepsInv(s, StartRefresh(r));
    if AllParked(s) {
      var fs, t := ServeAll(u, r);
    } else {
      var sid :| sid in s.channels && !IsParked(s, sid);
      forall fs, t | Run(u, fs, t) ensures r in t.refreshes {
        BlockedForEver(u, fs, t, r, sid);
      }
    }
  }

  /** No stream is cancelled and no further Refresh begins. */
  predicate Calm(es: seq<Event>) {
    forall e :: e in es ==> !e.ContextDone? && !e.StartRefresh?
  }

  lemma CalmStep(s: State, e: Event, r: nat)
    requires Inv(s) && Enabled(s, e) && !e.ContextDone? && !e.StartRefresh?
    requires s.refreshes.Keys <= {r} && PendingParked(s, r)
    ensures Step(s, e).refreshes.Keys <= {r} && PendingParked(Step(s, e), r)
    ensures r in s.refreshes && r in Step(s, e).refreshes ==> Step(s, e).refreshes[r] <= s.refreshes[r]
  {
  }

  /**
   * A Refresh started while every registered stream is in its select, with no cancellation and no
   * other Refresh, never blocks: at every point of every run, each stream it still owes a token can
   * take it, and once it owes none it can come back.
   */
  lemma {:induction false} RefreshNeverBlocks(s: State, es: seq<Event>, t: State, r: nat)
    requires Inv(s) && s.refreshes.Keys <= {r} && PendingParked(s, r)
    requires Run(s, es, t) && Calm(es)
    ensures r in t.refreshes ==>
              && (forall sid :: sid in t.refreshes[r] ==> Enabled(t, HandToken(r, sid)))
              && (t.refreshes[r] == {} ==> Enabled(t, EndRefresh(r)))
    decreases |es|
  {
    if es == [] {
      if r in s.refreshes {
        forall sid | sid in s.refreshes[r] ensures Enabled(s, HandToken(r, sid)) {
          TokenIsEnabled(s, r, sid);
        }
      }
    } else {
      var e := es[0];
      assert e in es && forall f :: f in es[1..] ==> f in es;
      StepKeepsInv(s, e);
      CalmStep(s, e, r);
      RefreshNeverBlocks(Step(s, e), es[1..], t, r);
    }
  }

  /** Steps of its own that a Refresh call still has to take. */
  function RefreshRank(s: State, r: nat): nat {
    if r in s.refreshes then |s.refreshes[r]| + 1 else 0
  }

  /** The next token or the return of this Refresh call. */
  predicate StepOf(e: Event, r: nat) {
    (e.HandToken? || e.EndRefresh?) && e.r == r
  }

  /** How many steps of a Refresh call are in a run. */
  function StepsOf(es: seq<Event>, r: nat): nat
    decreases |es|
  {
    if es == [] then 0 else (if StepOf(es[0], r) then 1 else 0) + StepsOf(es[1..], r)
  }

  lemma RankStep(s: State, e: Event, r: nat)
    requires Enabled(s, e) && e != StartRefresh(r)
    ensures RefreshRank(Step(s, e), r) == RefreshRank(s, r) - (if StepOf(e, r) then 1 else 0)
  {
    if e.HandToken? && e.r == r {
      assert |s.refreshes[r] - {e.sid}| == |s.refreshes[r]| - 1;
    }
  }

  /** Each step of a Refresh call lowers its rank by one, and no step of anybody else changes it. */
  lemma {:induction false} RefreshCountdown(s: State, es: seq<Event>, t: State, r: nat)
    requires Run(s, es, t) && StartRefresh(r) !in es
    ensures RefreshRank(t, r) == RefreshRank(s, r) - StepsOf(es, r)
    decreases |es|
  {
    if es != [] {
      RankStep(s, es[0], r);
      assert forall f :: f in es[1..] ==> f in es;
      RefreshCountdown(Step(s, es[0]), es[1..], t, r);
    }
  }

  /**
   * The refresh of parked streams in one statement. In every calm run after its start the call takes
   * at most one step per registered stream and one to come back; it is back exactly when it has taken
   * them all, and until then one of its steps is enabled.
   */
  lemma RefreshCompletes(before: seq<Event>, s: State, r: nat, es: seq<Event>, t: State)
    requires Run(INIT, before, s) && AllParked(s) && s.refreshes == map[] && r !in s.targets
    requires Run(Step(s, StartRefresh(r)), es, t) && Calm(es)
    ensures StepsOf(es, r) <= |s.channels| + 1
    ensures r !in t.refreshes <==> StepsOf(es, r) == |s.channels| + 1
    ensures r in t.refreshes ==> exists e :: StepOf(e, r) && Enabled(t, e)
  {
    RunKeepsInv(INIT, before, s);
    var u := Step(s, StartRefresh(r));
    StepKeepsInv(s, StartRefresh(r));
    assert |u.refreshes[r]| == |s.channels|;
    RefreshCountdown(u, es, t, r);
    RefreshNeverBlocks(u, es, t, r);
    if r in t.refreshes {
      if t.refreshes[r] == {} {
        assert StepOf(EndRefresh(r), r);
      } else {
        var sid :| sid in t.refreshes[r];
        assert StepOf(HandToken(r, sid), r);
      }
    }
  }

  /** A Refresh does block for ever once a registered stream has been cancelled and is on its way out. */
  lemma RefreshCanBlock(sid: nat, topic: string, r: nat) returns (es: seq<Event>, s: State)
    ensures Run(INIT, es, s) && sid in s.channels && !AllParked(s) && r !in s.targets
    ensures !CanReturn(Step(s, StartRefresh(r)), r)
  {
    var s1 := Step(INIT, Begin(sid));
    var s2 := Step(s1, Request(sid, topic));
    var s3 := Step(s2, Open(sid));
    var s4 := Step(s3, Ask(sid));
    s := Step(s4, ContextDone(sid));
    es := [ContextDone(sid)];
    Prepend(s4, ContextDone(sid), [], s);
    Prepend(s3, Ask(sid), es, s);
    es := [Ask(sid)] + es;
    Prepend(s2, Open(sid), es, s);
    es := [Open(sid)] + es;
    Prepend(s1, Request(sid, topic), es, s);
    es := [Request(sid, topic)] + es;
    Prepend(INIT, Begin(sid), es, s);
    es := [Begin(sid)] + es;
    assert sid in s.channels && !IsParked(s, sid);
    RefreshReturnsIff(es, s, r);
  }
}
