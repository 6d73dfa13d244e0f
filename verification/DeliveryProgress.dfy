/**
 * How long the engine can keep going: after ctx is done, and in drain. Each run is bounded by a potential that every
 * step lowers, except the steps that are counted.
 */
module DeliveryProgress {
  import opened DeliveryEngine
  import opened DeliveryThresholds

  /** How often an event that matches p occurs in a run. */
  function Count(es: seq<Event>, p: Event -> bool): nat {
    if es == [] then 0 else (if p(es[0]) then 1 else 0) + Count(es[1..], p)
  }

  // ----- shutdown

  /** The select of Receive chose a message although ctx is done. */
  predicate TakesMessage(e: Event) {
    e.TakeInput? || e.TakeNil? || e.TakeRetry?
  }

  function ShutdownPcWeight(pc: Pc): nat {
    match pc
    case Returned => 0
    case Stopping => 1
    case DrainChecking => 1
    case DrainWaiting => 2
    case Selecting => 3
    case NackingInLoop(_, _) => 4
    case Acquiring(_, _) => 8
    case Checking(_, _) => 9
    case DrainSelecting => 10
  }

  function ShutdownWeight(s: State): nat {
    ShutdownPcWeight(s.pc) + 4 * |s.running| + 3 * |s.nacking| + 2 * s.releasing + s.finishing
  }

  lemma ShutdownStep(max: nat, s: State, e: Event)
    requires s.ctxDone && Enabled(max, s, e)
    ensures ShutdownWeight(Apply(max, s, e)) + 1 <= ShutdownWeight(s) + (if TakesMessage(e) then 7 else 0)
  {
  }

  /**
   * Once ctx is done, a run has at most ShutdownWeight(s) steps and seven more for each time the select still prefers
   * a message.
   */
  lemma {:induction false} ShutdownIsBounded(max: nat, s: State, es: seq<Event>)
    requires s.ctxDone && Legal(max, s, es)
    ensures |es| <= ShutdownWeight(s) + 7 * Count(es, TakesMessage)
    decreases es
  {
    if es != [] {
      ShutdownStep(max, s, es[0]);
      ShutdownIsBounded(max, Apply(max, s, es[0]), es[1..]);
    }
  }

  lemma {:induction false} CtxStaysDone(max: nat, s: State, es: seq<Event>)
    requires s.ctxDone && Legal(max, s, es)
    ensures Exec(max, s, es).ctxDone
    decreases es
  {
    if es != [] {
      CtxStaysDone(max, Apply(max, s, es[0]), es[1..]);
    }
  }

  /**
   * Shutdown ends: with at most max + 1 messages outstanding, a run after ctx is done has a bounded number of steps,
   * unless the select prefers a message again and again, and it can only stop by returning.
   */
  lemma ShutdownEnds(max: nat, s: State, es: seq<Event>)
    requires max > 0 && Inv(max, s) && s.ctxDone && Legal(max, s, es) && Peak(max, s, es) <= max + 1
    ensures |es| <= ShutdownWeight(s) + 7 * Count(es, TakesMessage)
    ensures Quiescent(max, Exec(max, s, es)) ==> Exec(max, s, es).pc == Returned
  {
    ShutdownIsBounded(max, s, es);
    RunKeepsInv(max, s, es);
    CtxStaysDone(max, s, es);
    if Quiescent(max, Exec(max, s, es)) {
      QuiescentShapes(max, Exec(max, s, es));
    }
  }

  predicate StartsHandler(e: Event) {
    e.Acquire?
  }

  /**
   * Once ctx is done no message is handled any more, except one for which Dispatch had already seen ctx not done: a
   * message taken later goes back to retry without being handled.
   */
  lemma {:induction false} ShutdownStartsNoHandler(max: nat, s: State, es: seq<Event>)
    requires s.ctxDone && Legal(max, s, es)
    ensures Count(es, StartsHandler) <= if s.pc.Acquiring? then 1 else 0
    decreases es
  {
    if es != [] {
      ShutdownStartsNoHandler(max, Apply(max, s, es[0]), es[1..]);
    }
  }

  // ----- drain

  predicate HandlerFails(e: Event) {
    e.HandlerErr?
  }

  function DrainPcWeight(pc: Pc): nat {
    match pc
    case DrainSelecting => 1
    case DrainChecking => 2
    case DrainWaiting => 3
    case Acquiring(_, _) => 7
    case Checking(_, _) => 8
    case _ => 0
  }

  function DrainWeight(s: State): nat {
    DrainPcWeight(s.pc) + 3 * |s.running| + 11 * |s.nacking| + 2 * s.releasing + s.finishing + 8 * |s.retry|
  }

  /** drain is running, or has returned, and ctx is not done. */
  predicate InDrain(s: State) {
    (Draining(s) || s.pc.Returned?) && !s.pc.NackingInLoop? && !s.ctxDone
  }

  lemma DrainStays(max: nat, s: State, e: Event)
    requires InDrain(s) && Enabled(max, s, e) && e != Cancel
    ensures InDrain(Apply(max, s, e)) && Apply(max, s, e).taken == s.taken
  {
  }

  lemma DrainStep(max: nat, s: State, e: Event)
    requires InDrain(s) && Enabled(max, s, e) && e != Cancel
    ensures DrainWeight(Apply(max, s, e)) + 1 <= DrainWeight(s) + (if HandlerFails(e) then 9 else 0)
  {
  }

  lemma {:induction false} DrainRun(max: nat, s: State, es: seq<Event>)
    requires InDrain(s) && Legal(max, s, es) && Cancel !in es
    ensures InDrain(Exec(max, s, es)) && Exec(max, s, es).taken == s.taken
    ensures |es| <= DrainWeight(s) + 9 * Count(es, HandlerFails)
    decreases es
  {
    if es != [] {
      DrainStays(max, s, es[0]);
      DrainStep(max, s, es[0]);
      DrainRun(max, Apply(max, s, es[0]), es[1..]);
    }
  }

  lemma {:induction false} AckedGrows(max: nat, s: State, es: seq<Event>)
    requires Legal(max, s, es)
    ensures s.acked <= Exec(max, s, es).acked
    decreases es
  {
    if es != [] {
      AckedGrows(max, Apply(max, s, es[0]), es[1..]);
    }
  }

  /** drain does not get stuck, and what it leaves behind was acked. */
  lemma DrainEnd(max: nat, s: State)
    requires max > 0 && Inv(max, s) && InDrain(s) && Outstanding(s) <= max + 1
    ensures Quiescent(max, s) <==> s.pc == Returned
    ensures s.pc == Returned ==> s.acked == s.taken
  {
    if Quiescent(max, s) {
      QuiescentShapes(max, s);
    }
    if s.pc == Returned {
      assert s.running == s.nacking == multiset{} && multiset(s.retry) == multiset{};
    }
  }

  /**
   * drain terminates and handles everything: entered with at most max + 1 outstanding messages and ctx never done,
   * a run has a number of steps bounded by what is left to do and by how often a handler still fails; it can only
   * stop by returning, and then every message was acked exactly as often as it was taken.
   */
  lemma DrainTerminates(max: nat, s: State, es: seq<Event>)
    requires max > 0 && Inv(max, s) && s.pc == DrainWaiting && !s.ctxDone && Outstanding(s) <= max + 1
    requires Legal(max, s, es) && Cancel !in es
    ensures |es| <= DrainWeight(s) + 9 * Count(es, HandlerFails)
    ensures Quiescent(max, Exec(max, s, es)) <==> Exec(max, s, es).pc == Returned
    ensures Exec(max, s, es).pc == Returned ==> Exec(max, s, es).acked == Exec(max, s, es).taken == s.taken
  {
    var t := Exec(max, s, es);
    RunKeepsInv(max, s, es);
    DrainRun(max, s, es);
    AckedGrows(max, s, es);
    assert t.acked == s.acked + (t.acked - s.acked);
    DrainEnd(max, t);
  }

  /** drain waited once, so the loop and at most one handler goroutine are left. */
  predicate Solo(s: State) {
    s.wg <= 1 && (Draining(s) || s.pc.Returned?)
  }

  lemma SoloStep(max: nat, s: State, e: Event)
    requires Counted(max, s) && Solo(s) && Enabled(max, s, e)
    ensures Solo(Apply(max, s, e))
  {
  }

  lemma {:induction false} SoloRun(max: nat, s: State, es: seq<Event>)
    requires Inv(max, s) && Legal(max, s, es) && Solo(s)
    ensures Inv(max, Exec(max, s, es)) && Solo(Exec(max, s, es))
    decreases es
  {
    if es != [] {
      StepKeepsInv(max, s, es[0]);
      SoloStep(max, s, es[0]);
      SoloRun(max, Apply(max, s, es[0]), es[1..]);
    }
  }

  /** From where a Wait of drain has returned, in any run, no two messages are handled at the same time. */
  lemma DrainHandlesOneAtATime(max: nat, before: seq<Event>, es: seq<Event>)
    requires Legal(max, Init, before) && Exec(max, Init, before).pc.DrainChecking?
    requires Legal(max, Exec(max, Init, before), es)
    ensures var t := Exec(max, Exec(max, Init, before), es); |t.running| + |t.nacking| <= 1
  {
    RunKeepsInv(max, Init, before);
    SoloRun(max, Exec(max, Init, before), es);
  }
}
