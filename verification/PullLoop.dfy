/**
 * The JetStream pull loop (pkg/messaging/jetstream/jetstream.go, Subscribe): a main loop that takes a
 * semaphore slot and spawns a worker for it; each worker pulls one message, runs the handler and
 * acknowledges on success, or reports a pull error by closing the done channel.
 *
 * Goroutines have no identity: workers without a message are counted by where they are, and a
 * worker with a message is known by that message.
 */
module PullLoop {

  /** A requested int32 or configured limit; anything below one means one worker. */
  function MaxInFlight(configured: int): (n: nat)
    ensures 1 <= n
    ensures n == configured || (n == 1 && configured < 1)
  {
    if configured >= 1 then configured else 1
  }

  /** Where the main loop is: in its select, about to run "go", or returned. */
  datatype Loop = Selecting | Spawning | Returned

  /** A worker with a message: in the handler, about to acknowledge, or about to free its slot. */
  datatype Phase = Handling | Acking | Leaving

  datatype State = State(
    cap: nat,                    // capacity of the semaphore channel
    tokens: nat,                 // slots taken
    loop: Loop,
    pulling: nat,                // workers in iterator.Next
    failed: nat,                 // workers with a pull error, in front of their select on done
    checked: nat,                // workers that found done open and are about to close it
    giveUp: nat,                 // workers without a message about to free their slot
    carrying: map<nat, Phase>,   // workers with a message
    pulled: nat,                 // messages taken from the iterator, numbered in order
    finished: set<nat>,          // messages whose worker is gone
    succeeded: set<nat>,         // messages whose handler returned nil
    acked: multiset<nat>,
    closes: nat)                 // executions of close(done); a second one panics

  function Init(cap: nat): State {
    State(cap, 0, Selecting, 0, 0, 0, 0, map[], 0, {}, {}, multiset{}, 0)
  }

  function Workers(s: State): nat {
    s.pulling + s.failed + s.checked + s.giveUp + |s.carrying|
  }

  datatype Event =
    | Acquire
    | Spawn
    | Return
    | Pull
    | PullError
    | CheckDone
    | CloseDone
    | ReleaseFailed
    | Handled(msg: nat, ok: bool)
    | Ack(msg: nat)
    | Release(msg: nat)

  predicate Enabled(s: State, e: Event) {
    match e
    case Acquire => s.loop == Selecting && s.tokens < s.cap
    case Spawn => s.loop == Spawning
    case Return => s.loop == Selecting && s.closes > 0
    case Pull => s.pulling > 0
    case PullError => s.pulling > 0
    case CheckDone => s.failed > 0
    case CloseDone => s.checked > 0
    case ReleaseFailed => s.giveUp > 0 && s.tokens > 0
    case Handled(m, _) => m in s.carrying && s.carrying[m] == Handling
    case Ack(m) => m in s.carrying && s.carrying[m] == Acking
    case Release(m) => m in s.carrying && s.carrying[m] == Leaving && s.tokens > 0
  }

  function Step(s: State, e: Event): State
    requires Enabled(s, e)
  {
    match e
    case Acquire => s.(tokens := s.tokens + 1, loop := Spawning)
    case Spawn => s.(pulling := s.pulling + 1, loop := Selecting)
    case Return => s.(loop := Returned)
    case Pull => s.(pulling := s.pulling - 1, carrying := s.carrying[s.pulled := Handling], pulled := s.pulled + 1)
    case PullError => s.(pulling := s.pulling - 1, failed := s.failed + 1)
    case CheckDone =>
      if s.closes > 0 then s.(failed := s.failed - 1, giveUp := s.giveUp + 1)
      else s.(failed := s.failed - 1, checked := s.checked + 1)
    case CloseDone => s.(checked := s.checked - 1, giveUp := s.giveUp + 1, closes := s.closes + 1)
    case ReleaseFailed => s.(giveUp := s.giveUp - 1, tokens := s.tokens - 1)
    case Handled(m, ok) =>
      if ok then s.(carrying := s.carrying[m := Acking], succeeded := s.succeeded + {m})
      else s.(carrying := s.carrying[m := Leaving])
    case Ack(m) => s.(carrying := s.carrying[m := Leaving], acked := s.acked + multiset{m})
    case Release(m) =>
      s.(carrying := s.carrying - {m}, tokens := s.tokens - 1, finished := s.finished + {m})
  }

  ghost predicate Run(s: State, es: seq<Event>, t: State)
    decreases |es|
  {
    if es == [] then s == t else Enabled(s, es[0]) && Run(Step(s, es[0]), es[1..], t)
  }

  // ---------------------------------------------------------------------------------------------
  // The invariant

  ghost predicate SlotsInv(s: State) {
    && s.tokens == Workers(s) + (if s.loop == Spawning then 1 else 0) <= s.cap
    && s.pulled == |s.carrying| + |s.finished|
    && s.carrying.Keys !! s.finished
    && (forall m :: m in s.carrying || m in s.finished ==> m < s.pulled)
  }

  /** Handler result and acknowledgement of one message. */
  predicate MessageInv(s: State, m: nat) {
    && s.acked[m] <= 1
    && (m in s.succeeded ==> m < s.pulled)
    && (m in s.acked ==> m in s.succeeded)
    && (m in s.succeeded && m !in s.acked <==> m in s.carrying && s.carrying[m] == Acking)
    && (m in s.carrying && s.carrying[m] == Handling ==> m !in s.succeeded)
  }

  ghost predicate Inv(s: State) {
    SlotsInv(s) && forall m :: MessageInv(s, m)
  }

  lemma CarryingSize(carrying: map<nat, Phase>, m: nat, p: Phase)
    ensures |carrying[m := p]| == |carrying| + (if m in carrying then 0 else 1)
    ensures |carrying - {m}| == |carrying| - (if m in carrying then 1 else 0)
  {
    assert carrying[m := p].Keys == carrying.Keys + {m};
    assert (carrying - {m}).Keys == carrying.Keys - {m};
    assert m in carrying ==> carrying.Keys + {m} == carrying.Keys;
  }

  lemma SlotsKeptIdle(s: State, e: Event)
    requires SlotsInv(s) && Enabled(s, e) && !e.Pull? && !e.Handled? && !e.Ack? && !e.Release?
    ensures SlotsInv(Step(s, e))
  {
  }

  lemma SlotsKeptBusy(s: State, e: Event)
    requires SlotsInv(s) && Enabled(s, e) && (e.Handled? || e.Ack?)
    ensures SlotsInv(Step(s, e))
  {
    assert Step(s, e).carrying.Keys == s.carrying.Keys;
    CarryingSize(s.carrying, e.msg, Step(s, e).carrying[e.msg]);
  }

  lemma SlotsKeptPullRelease(s: State, e: Event)
    requires SlotsInv(s) && Enabled(s, e) && (e.Pull? || e.Release?)
    ensures SlotsInv(Step(s, e))
  {
    CarryingSize(s.carrying, if e.Pull? then s.pulled else e.msg, Handling);
  }

  lemma MessageKept(s: State, e: Event, m: nat)
    requires SlotsInv(s) && MessageInv(s, m) && Enabled(s, e)
    ensures MessageInv(Step(s, e), m)
  {
  }

  lemma StepKeepsInv(s: State, e: Event)
    requires Inv(s) && Enabled(s, e)
    ensures Inv(Step(s, e))
  {
    hide Step, SlotsInv, MessageInv;
    match e {
      case Pull => SlotsKeptPullRelease(s, e);
      case Release(_) => SlotsKeptPullRelease(s, e);
      case Handled(_, _) => SlotsKeptBusy(s, e);
      case Ack(_) => SlotsKeptBusy(s, e);
      case _ => SlotsKeptIdle(s, e);
    }
    forall m ensures MessageInv(Step(s, e), m) {
      MessageKept(s, e, m);
    }
  }

  lemma {:induction false} RunKeepsInv(s: State, es: seq<Event>, t: State)
    requires Inv(s) && Run(s, es, t)
    ensures Inv(t) && t.cap == s.cap
    decreases |es|
  {
    if es != [] {
      StepKeepsInv(s, es[0]);
      RunKeepsInv(Step(s, es[0]), es[1..], t);
    }
  }

  // ---------------------------------------------------------------------------------------------
  // Main results

  /**
   * On every interleaving the running workers are the slots taken, up to the one being handed over,
   * never more than the configured limit, or one where that is not positive; every pulled message is
   * with its running worker or finished; and when the j-th message has been pulled, at least
   * j - limit messages are finished.
   */
  lemma BoundedConcurrency(configured: int, es: seq<Event>, s: State)
    requires Run(Init(MaxInFlight(configured)), es, s)
    ensures Workers(s) + (if s.loop == Spawning then 1 else 0) == s.tokens
    ensures if configured >= 1 then s.tokens <= configured else s.tokens <= 1
    ensures s.pulled == |s.carrying| + |s.finished| && s.carrying.Keys !! s.finished
    ensures forall m :: m in s.carrying || m in s.finished ==> m < s.pulled
    ensures |s.finished| >= s.pulled - (if configured >= 1 then configured else 1)
  {
    RunKeepsInv(Init(MaxInFlight(configured)), es, s);
  }

  /** A message is acknowledged at most once, only after its handler succeeded, and then before its worker ends. */
  lemma AckOnlyOnSuccess(configured: int, es: seq<Event>, s: State, m: nat)
    requires Run(Init(MaxInFlight(configured)), es, s)
    ensures s.acked[m] <= 1
    ensures m in s.acked ==> m in s.succeeded && m < s.pulled
    ensures m in s.finished ==> (m in s.acked <==> m in s.succeeded)
  {
    RunKeepsInv(Init(MaxInFlight(configured)), es, s);
    assert MessageInv(s, m);
  }

  /** With one slot, a worker about to close done is the only worker and nobody closed it before. */
  predicate OneClose(s: State) {
    s.closes <= 1 && (s.checked > 0 ==> s.closes == 0)
  }

  lemma {:induction false} SingleSlot(s: State, es: seq<Event>, t: State)
    requires Inv(s) && s.cap == 1 && OneClose(s) && Run(s, es, t)
    ensures OneClose(t)
    decreases |es|
  {
    if es != [] {
      StepKeepsInv(s, es[0]);
      SingleSlot(Step(s, es[0]), es[1..], t);
    }
  }

  lemma Prepend(s: State, e: Event, es: seq<Event>, t: State)
    requires Enabled(s, e) && Run(Step(s, e), es, t)
    ensures Run(s, [e] + es, t)
  {
    assert ([e] + es)[1..] == es;
  }

  /** With two slots, two workers can both find done open and both close it. */
  lemma TwoSlotsCloseTwice(configured: int) returns (es: seq<Event>, s: State)
    requires configured >= 2
    ensures Run(Init(MaxInFlight(configured)), es, s) && s.closes == 2
  {
    var s0 := Init(MaxInFlight(configured));
    var s1 := Step(s0, Acquire);
    var s2 := Step(s1, Spawn);
    var s3 := Step(s2, Acquire);
    var s4 := Step(s3, Spawn);
    var s5 := Step(s4, PullError);
    var s6 := Step(s5, PullError);
    var s7 := Step(s6, CheckDone);
    var s8 := Step(s7, CheckDone);
    var s9 := Step(s8, CloseDone);
    s := Step(s9, CloseDone);
    es := [CloseDone];
    Prepend(s9, CloseDone, [], s);
    Prepend(s8, CloseDone, es, s);
    es := [CloseDone] + es;
    Prepend(s7, CheckDone, es, s);
    es := [CheckDone] + es;
    Prepend(s6, CheckDone, es, s);
    es := [CheckDone] + es;
    Prepend(s5, PullError, es, s);
    es := [PullError] + es;
    Prepend(s4, PullError, es, s);
    es := [PullError] + es;
    Prepend(s3, Spawn, es, s);
    es := [Spawn] + es;
    Prepend(s2, Acquire, es, s);
    es := [Acquire] + es;
    Prepend(s1, Spawn, es, s);
    es := [Spawn] + es;
    Prepend(s0, Acquire, es, s);
    es := [Acquire] + es;
  }

  ghost predicate ClosesAtMostOnce(configured: int) {
    forall es, s :: Run(Init(MaxInFlight(configured)), es, s) ==> s.closes <= 1
  }

  /** The done channel is closed at most once on every interleaving exactly when at most one worker is configured. */
  lemma DoneClosedOnceIff(configured: int)
    ensures ClosesAtMostOnce(configured) <==> configured <= 1
  {
    var cap := MaxInFlight(configured);
    if cap == 1 {
      forall es, s | Run(Init(cap), es, s) ensures s.closes <= 1 {
        SingleSlot(Init(cap), es, s);
      }
    } else {
      var es, s := TwoSlotsCloseTwice(configured);
      assert !(s.closes <= 1);
    }
  }
}
