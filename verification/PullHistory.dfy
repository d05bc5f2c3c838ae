/**
 * What the events of a run say about the pull loop, and what one worker does from slot to slot: with a
 * message that succeeds, with one that fails, and with a pull error.
 */
module PullHistory {
  import opened PullLoop

  lemma {:induction false} LastStep(s: State, es: seq<Event>, t: State) returns (u: State)
    requires es != [] && Run(s, es, t)
    ensures
      var init, e := es[..|es| - 1], es[|es| - 1];
      && Run(s, init, u) && Enabled(u, e) && t == Step(u, e)
      && es == init + [e] && forall x :: x in es <==> x in init || x == e
    decreases |es|
  {
    if |es| == 1 {
      u := s;
    } else {
      u := LastStep(Step(s, es[0]), es[1..], t);
      assert es[..|es| - 1][1..] == es[1..][..|es| - 2];
    }
  }

  lemma {:induction false} RunUpTo(start: State, es: seq<Event>, s: State, j: nat) returns (u: State)
    requires Run(start, es, s) && j < |es|
    ensures Run(start, es[..j], u) && Enabled(u, es[j])
    decreases |es|
  {
    u := LastStep(start, es, s);
    if j < |es| - 1 {
      var init := es[..|es| - 1];
      assert init[..j] == es[..j] && init[j] == es[j];
      u := RunUpTo(start, init, u, j);
    }
  }

  // ---------------------------------------------------------------------------------------------
  // The record

  function Count(es: seq<Event>, x: Event): nat {
    if es == [] then 0 else Count(es[..|es| - 1], x) + (if es[|es| - 1] == x then 1 else 0)
  }

  /** The state counts what happened: pulls, closes, and for a message its results, acks and end. */
  lemma {:induction false} StateIsEvents(cap: nat, es: seq<Event>, s: State, m: nat)
    requires Run(Init(cap), es, s)
    ensures s.pulled == Count(es, Pull) && s.closes == Count(es, CloseDone)
    ensures m in s.succeeded <==> Handled(m, true) in es
    ensures s.acked[m] == Count(es, Ack(m))
    ensures m in s.finished <==> Release(m) in es
    ensures s.loop == Returned <==> Return in es
    decreases |es|
  {
    if es != [] {
      var u := LastStep(Init(cap), es, s);
      StateIsEvents(cap, es[..|es| - 1], u, m);
    }
  }

  /** The loop returns only after done was closed, and takes no slot and starts no worker afterwards. */
  lemma ReturnIsTheEnd(cap: nat, es: seq<Event>, s: State, i: nat)
    requires Run(Init(cap), es, s) && i < |es| && es[i] == Return
    ensures Count(es[..i], CloseDone) > 0
    ensures forall j :: i < j < |es| ==> !es[j].Acquire? && !es[j].Spawn? && !es[j].Return?
  {
    var u := RunUpTo(Init(cap), es, s, i);
    StateIsEvents(cap, es[..i], u, 0);
    forall j | i < j < |es| ensures !es[j].Acquire? && !es[j].Spawn? && !es[j].Return? {
      var v := RunUpTo(Init(cap), es, s, j);
      StateIsEvents(cap, es[..j], v, 0);
      assert es[..j][i] == Return;
    }
  }

  // ---------------------------------------------------------------------------------------------
  // One worker

  lemma Then(s: State, es: seq<Event>, t: State, e: Event)
    requires Run(s, es, t) && Enabled(t, e)
    ensures Run(s, es + [e], Step(t, e))
    decreases |es|
  {
    if es != [] {
      Then(Step(s, es[0]), es[1..], t, e);
      assert (es + [e])[1..] == es[1..] + [e];
    }
  }

  lemma Nothing(s: State)
    ensures Run(s, [], s)
  {
  }

  /** A worker starts as soon as there is a free slot. */
  lemma WorkerStarts(s: State) returns (es: seq<Event>, t: State)
    requires s.loop == Selecting && s.tokens < s.cap
    ensures Run(s, es, t) && t == s.(tokens := s.tokens + 1, pulling := s.pulling + 1)
  {
    hide Run;
    Nothing(s);
    Then(s, [], s, Acquire);
    Then(s, [] + [Acquire], Step(s, Acquire), Spawn);
    es := [] + [Acquire] + [Spawn];
    t := Step(Step(s, Acquire), Spawn);
  }

  /** A message is handled, acknowledged exactly when its handler succeeds, and its slot is free again. */
  lemma MessageIsHandled(s: State, ok: bool) returns (es: seq<Event>, t: State)
    requires s.loop == Selecting && s.tokens < s.cap && s.pulled !in s.carrying
    ensures Run(s, es, t)
    ensures
      var m := s.pulled;
      t == s.(pulled := m + 1, finished := s.finished + {m},
              succeeded := if ok then s.succeeded + {m} else s.succeeded,
              acked := if ok then s.acked + multiset{m} else s.acked)
  {
    hide Run;
    var m := s.pulled;
    var s1;
    es, s1 := WorkerStarts(s);
    Then(s, es, s1, Pull);
    es := es + [Pull];
    var s2 := Step(s1, Pull);
    Then(s, es, s2, Handled(m, ok));
    es := es + [Handled(m, ok)];
    var s3 := Step(s2, Handled(m, ok));
    if ok {
      Then(s, es, s3, Ack(m));
      es, s3 := es + [Ack(m)], Step(s3, Ack(m));
    }
    Then(s, es, s3, Release(m));
    es := es + [Release(m)];
    t := Step(s3, Release(m));
    assert t.carrying == s.carrying;
  }

  /** A pull error closes done, if it is open, and frees its slot; then the loop can return. */
  lemma PullErrorCloses(s: State) returns (es: seq<Event>, t: State)
    requires s.loop == Selecting && s.tokens < s.cap
    ensures Run(s, es, t) && t == s.(closes := if s.closes == 0 then 1 else s.closes)
    ensures Enabled(t, Return)
  {
    hide Run;
    var s1;
    es, s1 := WorkerStarts(s);
    Then(s, es, s1, PullError);
    es := es + [PullError];
    var s2 := Step(s1, PullError);
    Then(s, es, s2, CheckDone);
    es := es + [CheckDone];
    var s3 := Step(s2, CheckDone);
    if s.closes == 0 {
      Then(s, es, s3, CloseDone);
      es, s3 := es + [CloseDone], Step(s3, CloseDone);
    }
    Then(s, es, s3, ReleaseFailed);
    es := es + [ReleaseFailed];
    t := Step(s3, ReleaseFailed);
  }

  /** In every reachable state with a free slot and a loop that runs, the next message can be handled. */
  lemma NextMessageCanBeHandled(configured: int, es: seq<Event>, s: State, ok: bool) returns (fs: seq<Event>, t: State)
    requires Run(Init(MaxInFlight(configured)), es, s) && s.loop == Selecting && s.tokens < s.cap
    ensures Run(s, fs, t) && s.pulled in t.finished && (s.pulled in t.acked <==> ok)
    ensures t.tokens == s.tokens && t.loop == Selecting && t.carrying == s.carrying
  {
    RunKeepsInv(Init(MaxInFlight(configured)), es, s);
    assert MessageInv(s, s.pulled);
    fs, t := MessageIsHandled(s, ok);
  }
}
