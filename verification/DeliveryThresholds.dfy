/**
 * How many messages may be outstanding before the engine can get stuck.
 *
 * retry has room for max + 1 messages, but a nacked message gives its slot back and the select of Receive may keep
 * preferring the input, so the buffer can fill. Each theorem here is an equivalence: it holds of every run whose
 * outstanding messages stay within a bound if and only if that bound is small enough, and the other direction is a
 * run that gets stuck.
 */
module DeliveryThresholds {
  import opened DeliveryEngine

  /** A step the environment takes, rather than the engine. Handlers return, so their steps belong to the engine. */
  predicate External(e: Event) {
    e.Cancel? || e.TakeInput? || e.TakeNil? || e.SeeClosed?
  }

  /** The engine cannot take a step by itself. */
  ghost predicate Quiescent(max: nat, s: State) {
    forall e: Event :: Enabled(max, s, e) ==> External(e)
  }

  /** The loop waits for its input, and has nothing else to do. */
  predicate Idle(s: State) {
    s.pc == Selecting && s.retry == [] && s.wg == 0 && s.taken == s.acked
  }

  /** A nack, of a handler or of the loop, waits for room in retry. */
  predicate NackBlocked(max: nat, s: State) {
    |s.retry| == RetryCap(max) && (s.nacking != multiset{} || s.pc.NackingInLoop?)
  }

  /** The loop is in Receive's own loop: ctx was not seen done, and the input not seen closed. */
  predicate Receiving(s: State) {
    s.pc.Selecting? || (InDispatch(s.pc) && s.pc.origin == FromReceive)
  }

  predicate Draining(s: State) {
    s.pc.DrainWaiting? || DrainAlone(s.pc)
  }

  lemma OutstandingCount(max: nat, s: State)
    requires Inv(max, s)
    ensures Outstanding(s) == |s.running| + |s.nacking| + |s.retry| + |Held(s.pc)|
  {
  }

  lemma QuiescentHandlers(max: nat, s: State)
    requires Inv(max, s) && Quiescent(max, s)
    ensures s.running == multiset{} && s.releasing == 0 && s.finishing == 0
    ensures s.nacking != multiset{} ==> |s.retry| == RetryCap(max)
  {
    assert Enabled(max, s, Release) <==> s.releasing > 0;
    assert Enabled(max, s, Finish) <==> s.finishing > 0;
    assert forall m :: Enabled(max, s, HandlerOk(m)) <==> m in s.running;
    assert forall m :: Enabled(max, s, NackSend(m)) <==> m in s.nacking && |s.retry| < RetryCap(max);
  }

  lemma QuiescentLoop(max: nat, s: State)
    requires Quiescent(max, s)
    ensures match s.pc
      case Selecting => s.retry == [] && !s.ctxDone
      case Acquiring(_, _) => s.slots >= max && !s.ctxDone
      case NackingInLoop(_, _) => |s.retry| >= RetryCap(max)
      case Stopping => s.wg > 0
      case DrainWaiting => s.wg > 0
      case Returned => true
      case _ => false
  {
    assert Enabled(max, s, TakeRetry) <==> s.pc.Selecting? && s.retry != [];
    assert Enabled(max, s, SeeDone) <==> s.pc.Selecting? && s.ctxDone;
    assert Enabled(max, s, CheckCtx) <==> s.pc.Checking?;
    assert Enabled(max, s, Acquire) <==> s.pc.Acquiring? && s.slots < max;
    assert Enabled(max, s, GiveUp) <==> s.pc.Acquiring? && s.ctxDone;
    assert Enabled(max, s, LoopNack) <==> s.pc.NackingInLoop? && |s.retry| < RetryCap(max);
    assert Enabled(max, s, StopDone) <==> s.pc.Stopping? && s.wg == 0;
    assert Enabled(max, s, DrainDone) <==> s.pc.DrainWaiting? && s.wg == 0;
    assert Enabled(max, s, DrainCheck) <==> s.pc.DrainChecking?;
    assert Enabled(max, s, DrainTake) <==> s.pc.DrainSelecting? && s.retry != [];
    assert Enabled(max, s, DrainEmpty) <==> s.pc.DrainSelecting? && s.retry == [];
  }

  /** The only ways for the engine to stand still, with how many messages are then outstanding. */
  lemma QuiescentShapes(max: nat, s: State)
    requires max > 0 && Inv(max, s) && Quiescent(max, s)
    ensures match s.pc
      case Selecting => Idle(s) && !s.ctxDone
      case Acquiring(_, FromReceive) => !s.ctxDone && Outstanding(s) == 2 * max + 2
      case NackingInLoop(_, _) => NackBlocked(max, s) && Outstanding(s) >= max + 2
      case Stopping => NackBlocked(max, s) && Outstanding(s) >= max + 2
      case DrainWaiting => NackBlocked(max, s) && Outstanding(s) >= max + 2
      case Returned => true
      case _ => false
  {
    QuiescentHandlers(max, s);
    QuiescentLoop(max, s);
    OutstandingCount(max, s);
  }

  // ----- runs that fill retry

  /** Some run within the bound leads from s to t. */
  ghost predicate Reaches(max: nat, bound: int, s: State, t: State) {
    exists es :: Legal(max, s, es) && Exec(max, s, es) == t && Peak(max, s, es) <= bound
  }

  lemma Cons(max: nat, s: State, e: Event, es: seq<Event>)
    requires Enabled(max, s, e) && Legal(max, Apply(max, s, e), es)
    ensures Legal(max, s, [e] + es)
    ensures Exec(max, s, [e] + es) == Exec(max, Apply(max, s, e), es)
  {
    assert ([e] + es)[1..] == es;
  }

  lemma Step(max: nat, bound: int, s: State, e: Event)
    requires Enabled(max, s, e) && Outstanding(s) <= bound && Outstanding(Apply(max, s, e)) <= bound
    ensures Reaches(max, bound, s, Apply(max, s, e))
  {
    var es, t := [e], Apply(max, s, e);
    assert es[1..] == [];
    assert Legal(max, t, []) && Exec(max, t, []) == t && Peak(max, t, []) == Outstanding(t);
    assert Legal(max, s, es) && Exec(max, s, es) == t && Peak(max, s, es) <= bound;
  }

  lemma Then(max: nat, bound: int, s: State, t: State, u: State)
    requires Reaches(max, bound, s, t) && Reaches(max, bound, t, u)
    ensures Reaches(max, bound, s, u)
  {
    var a :| Legal(max, s, a) && Exec(max, s, a) == t && Peak(max, s, a) <= bound;
    var b :| Legal(max, t, b) && Exec(max, t, b) == u && Peak(max, t, b) <= bound;
    ExecConcat(max, s, a, b);
  }

  /** Receive took a new message from the input and its handler runs. */
  function Handling(s: State, m: Msg): State {
    s.(taken := s.taken + multiset{m}, running := s.running + multiset{m}, slots := s.slots + 1, wg := s.wg + 1)
  }

  /** The handler of that message failed, and its nack is not done. */
  function FailNew(s: State, m: Msg): State {
    s.(taken := s.taken + multiset{m}, nacking := s.nacking + multiset{m}, slots := s.slots + 1, wg := s.wg + 1)
  }

  lemma ReachHandling(max: nat, bound: int, s: State, m: Msg)
    requires s.pc == Selecting && !s.ctxDone && s.slots < max && Outstanding(s) < bound
    ensures Reaches(max, bound, s, Handling(s, m))
  {
    var s1 := Apply(max, s, TakeInput(m));
    var s2 := Apply(max, s1, CheckCtx);
    Step(max, bound, s, TakeInput(m));
    Step(max, bound, s1, CheckCtx);
    Step(max, bound, s2, Acquire);
    Then(max, bound, s, s1, s2);
    Then(max, bound, s, s2, Handling(s, m));
  }

  lemma ReachFailNew(max: nat, bound: int, s: State, m: Msg)
    requires s.pc == Selecting && !s.ctxDone && s.slots < max && Outstanding(s) < bound
    ensures Reaches(max, bound, s, FailNew(s, m))
  {
    ReachHandling(max, bound, s, m);
    Step(max, bound, Handling(s, m), HandlerErr(m));
    assert s.running + multiset{m} - multiset{m} == s.running;
    assert Apply(max, Handling(s, m), HandlerErr(m)) == FailNew(s, m);
    Then(max, bound, s, Handling(s, m), FailNew(s, m));
  }

  /** The nack of m ends, and its handler goroutine with it. */
  function Settled(s: State, m: Msg): State
    requires s.slots > 0 && s.wg > 0
  {
    s.(nacking := s.nacking - multiset{m}, retry := s.retry + [m], slots := s.slots - 1, wg := s.wg - 1)
  }

  lemma ReachSettled(max: nat, bound: int, s: State, m: Msg)
    requires m in s.nacking && s.slots > 0 && s.wg > 0 && |s.retry| < RetryCap(max) && Outstanding(s) <= bound
    ensures Reaches(max, bound, s, Settled(s, m))
  {
    var s1 := Apply(max, s, NackSend(m));
    var s2 := Apply(max, s1, Release);
    Step(max, bound, s, NackSend(m));
    Step(max, bound, s1, Release);
    Step(max, bound, s2, Finish);
    Then(max, bound, s, s1, s2);
    Then(max, bound, s, s2, Settled(s, m));
  }

  /** The messages 0, 1, .., n - 1. */
  function Numbered(n: nat): seq<Msg> {
    seq(n, i => i)
  }

  /** k messages were taken and failed once, and all of them wait in retry. */
  function Filled(k: nat): State {
    Init.(retry := Numbered(k), taken := multiset(Numbered(k)))
  }

  lemma NumberedNext(n: nat)
    ensures Numbered(n + 1) == Numbered(n) + [n]
    ensures multiset(Numbered(n + 1)) == multiset(Numbered(n)) + multiset{n}
  {
  }

  /** The select may keep choosing the input while retry fills up. */
  lemma {:induction false} ReachFilled(max: nat, bound: int, k: nat)
    requires 0 < max && k <= RetryCap(max) && k <= bound
    ensures Reaches(max, bound, Init, Filled(k))
  {
    if k == 0 {
      assert Legal(max, Init, []) && Exec(max, Init, []) == Init && Peak(max, Init, []) == 0;
      assert Filled(0) == Init;
    } else {
      var s, m := Filled(k - 1), k - 1;
      ReachFilled(max, bound, k - 1);
      ReachFailNew(max, bound, s, m);
      ReachSettled(max, bound, FailNew(s, m), m);
      Then(max, bound, Init, s, FailNew(s, m));
      NumberedNext(m);
      assert multiset{m} - multiset{m} == multiset{};
      assert Settled(FailNew(s, m), m) == Filled(k);
      Then(max, bound, Init, FailNew(s, m), Filled(k));
    }
  }

  /** retry is full, and j more handlers wait to send to it. */
  function Jammed(max: nat, j: nat): State {
    var n := RetryCap(max);
    Filled(n).(taken := multiset(Numbered(n + j)), nacking := multiset(Numbered(n + j)[n..]), slots := j, wg := j)
  }

  lemma JammedStart(max: nat)
    ensures Jammed(max, 0) == Filled(RetryCap(max))
  {
    assert Numbered(RetryCap(max))[RetryCap(max)..] == [];
  }

  lemma JammedNext(max: nat, j: nat)
    ensures FailNew(Jammed(max, j), RetryCap(max) + j) == Jammed(max, j + 1)
  {
    var n := RetryCap(max);
    NumberedNext(n + j);
    assert Numbered(n + j + 1)[n..] == Numbered(n + j)[n..] + [n + j];
  }

  lemma JammedCounts(max: nat, j: nat)
    ensures var s := Jammed(max, j);
      && s.pc == Selecting && !s.ctxDone && s.slots == s.wg == j && Outstanding(s) == RetryCap(max) + j
      && s.nacking[max + 1] == if j > 0 then 1 else 0
  {
    var q := Numbered(RetryCap(max) + j)[RetryCap(max)..];
    if j > 0 {
      assert q == [max + 1] + q[1..];
      assert forall i | 0 <= i < |q[1..]| :: q[1..][i] == max + 2 + i;
      assert max + 1 !in q[1..];
      assert multiset(q) == multiset{max + 1} + multiset(q[1..]);
    } else {
      assert q == [];
    }
  }

  lemma ReachJammedNext(max: nat, bound: int, j: nat)
    requires 0 < max && j < max && RetryCap(max) + j < bound
    ensures Reaches(max, bound, Jammed(max, j), Jammed(max, j + 1))
  {
    JammedCounts(max, j);
    ReachFailNew(max, bound, Jammed(max, j), RetryCap(max) + j);
    JammedNext(max, j);
  }

  lemma ReachJammedStart(max: nat, bound: int)
    requires 0 < max && RetryCap(max) <= bound
    ensures Reaches(max, bound, Init, Jammed(max, 0))
  {
    ReachFilled(max, bound, RetryCap(max));
    JammedStart(max);
  }

  lemma {:induction false} ReachJammed(max: nat, bound: int, j: nat)
    requires 0 < max && j <= max && RetryCap(max) + j <= bound
    ensures Reaches(max, bound, Init, Jammed(max, j))
  {
    if j == 0 {
      ReachJammedStart(max, bound);
    } else {
      ReachJammed(max, bound, j - 1);
      ReachJammedNext(max, bound, j - 1);
      Then(max, bound, Init, Jammed(max, j - 1), Jammed(max, j));
    }
  }

  // ----- the exact thresholds

  lemma ReachedStates(max: nat, bound: int, s: State)
    requires Reaches(max, bound, Init, s)
    ensures Inv(max, s) && Outstanding(s) <= bound
  {
    var es :| Legal(max, Init, es) && Exec(max, Init, es) == s && Peak(max, Init, es) <= bound;
    RunKeepsInv(max, Init, es);
  }

  lemma JammedIsStuck(max: nat, s: State)
    requires s.running == multiset{} && s.releasing == s.finishing == 0 && s.wg > 0
    requires |s.retry| == RetryCap(max) && (s.pc.Stopping? || s.pc.DrainWaiting?)
    ensures Quiescent(max, s)
  {
  }

  /**
   * retry never blocks a nack, in every run with at most bound outstanding messages, if and only if bound is at most
   * max + 1: what the comment on retry needs, and what Receive does not enforce.
   */
  lemma NackNeverBlocksIff(max: nat, bound: nat)
    requires max > 0
    ensures (forall s :: Reaches(max, bound, Init, s) ==> !NackBlocked(max, s)) <==> bound <= max + 1
  {
    forall s | Reaches(max, bound, Init, s) && bound <= max + 1 ensures !NackBlocked(max, s) {
      ReachedStates(max, bound, s);
      OutstandingCount(max, s);
    }
    if bound > max + 1 {
      ReachJammed(max, bound, 1);
      JammedCounts(max, 1);
      assert NackBlocked(max, Jammed(max, 1));
    }
  }

  /**
   * After ctx is done, the engine can only stand still by having returned, in every run with at most bound
   * outstanding messages, if and only if bound is at most max + 1. With one more, Wait never returns.
   */
  lemma ShutdownNeverHangsIff(max: nat, bound: nat)
    requires max > 0
    ensures (forall s :: Reaches(max, bound, Init, s) && s.ctxDone && Quiescent(max, s) ==> s.pc == Returned) <==>
            bound <= max + 1
  {
    forall s | Reaches(max, bound, Init, s) && s.ctxDone && Quiescent(max, s) && bound <= max + 1
      ensures s.pc == Returned
    {
      ReachedStates(max, bound, s);
      QuiescentShapes(max, s);
    }
    if bound > max + 1 {
      var s := Jammed(max, 1);
      var s1 := Apply(max, s, Cancel);
      var s2 := Apply(max, s1, SeeDone);
      ReachJammed(max, bound, 1);
      Step(max, bound, s, Cancel);
      Step(max, bound, s1, SeeDone);
      Then(max, bound, Init, s, s1);
      Then(max, bound, Init, s1, s2);
      JammedIsStuck(max, s2);
    }
  }

  /** The same threshold for drain, which handles the last messages after the input is closed. */
  lemma DrainNeverHangsIff(max: nat, bound: nat)
    requires max > 0
    ensures (forall s :: Reaches(max, bound, Init, s) && Draining(s) ==> !Quiescent(max, s)) <==> bound <= max + 1
  {
    forall s | Reaches(max, bound, Init, s) && Draining(s) && bound <= max + 1 ensures !Quiescent(max, s) {
      ReachedStates(max, bound, s);
      if Quiescent(max, s) {
        QuiescentShapes(max, s);
      }
    }
    if bound > max + 1 {
      var s := Jammed(max, 1);
      ReachJammed(max, bound, 1);
      Step(max, bound, s, SeeClosed);
      Then(max, bound, Init, s, Apply(max, s, SeeClosed));
      JammedIsStuck(max, Apply(max, s, SeeClosed));
    }
  }

  /** retry is full, every slot is held by a blocked nack, and the loop waits for a slot. */
  predicate Deadlocked(max: nat, s: State) {
    s.pc.Acquiring? && s.pc.origin == FromReceive && !s.ctxDone && s.running == multiset{} &&
    s.releasing == s.finishing == 0 && s.slots == max && |s.retry| == RetryCap(max)
  }

  lemma DeadlockedIsStuck(max: nat, s: State)
    requires Deadlocked(max, s)
    ensures Quiescent(max, s) && Receiving(s) && !Idle(s)
  {
  }

  /** The loop takes one more message, and waits for a slot. */
  lemma TakeOneMore(max: nat, bound: int, s: State, m: Msg) returns (t: State)
    requires s.pc == Selecting && !s.ctxDone && Outstanding(s) < bound
    ensures Reaches(max, bound, s, t) && t == s.(pc := Acquiring(m, FromReceive), taken := s.taken + multiset{m})
  {
    var u := Apply(max, s, TakeInput(m));
    t := Apply(max, u, CheckCtx);
    Step(max, bound, s, TakeInput(m));
    Step(max, bound, u, CheckCtx);
    Then(max, bound, s, u, t);
  }

  lemma ReachDeadlock(max: nat, bound: int) returns (t: State)
    requires max > 0 && bound >= 2 * max + 2
    ensures Reaches(max, bound, Init, t) && Deadlocked(max, t)
  {
    var s := Jammed(max, max);
    JammedCounts(max, max);
    ReachJammed(max, bound, max);
    t := TakeOneMore(max, bound, s, 2 * max + 1);
    Then(max, bound, Init, s, t);
  }

  /**
   * While Receive runs with ctx not done and its input open, the engine only stands still because nothing is left to
   * do, in every run with at most bound outstanding messages, if and only if bound is at most 2 * max + 1. With one
   * more, retry is full, every slot is held by a blocked nack, and the loop waits for a slot.
   */
  lemma ReceiveNeverDeadlocksIff(max: nat, bound: nat)
    requires max > 0
    ensures (forall s :: Reaches(max, bound, Init, s) && Receiving(s) && !s.ctxDone && Quiescent(max, s) ==>
               Idle(s)) <==> bound <= 2 * max + 1
  {
    forall s | Reaches(max, bound, Init, s) && Receiving(s) && !s.ctxDone && Quiescent(max, s) && bound <= 2 * max + 1
      ensures Idle(s)
    {
      ReachedStates(max, bound, s);
      QuiescentShapes(max, s);
    }
    if bound > 2 * max + 1 {
      var s := ReachDeadlock(max, bound);
      DeadlockedIsStuck(max, s);
    }
  }
}
