/**
 * The Dispatcher (core/subscriber/dispatcher.go) as every Subscriber uses it: any number of Dispatch calls, from any
 * number of goroutines, each with its own ctx. Deliveries keep their identity, so what is proved is about each of
 * them. Ack and Nack are calls that return; a handler returns nil or an error, or panics.
 */
module DispatcherProtocol {
  import opened Outcomes
  import opened Wrappers

  datatype Phase =
    | Calling     // Dispatch, about to read ctx.Err()
    | Waiting     // Dispatch, in its select
    | Refusing    // Dispatch, about to nack because ctx is done
    | Handling    // the goroutine runs the handler
    | Acking | Nacking
    | Unwinding   // acknowledged, about to give the slot back
    | Leaving     // about to call wg.Done
    | Done

  datatype Delivery = Delivery(phase: Phase, ctxDone: bool, outcome: Option<Outcome>, acks: nat, nacks: nat)

  datatype State = State(ds: seq<Delivery>, slots: nat, wg: nat, crashed: bool)

  /** What happens to one delivery. */
  datatype Action =
    | Cancel                                 // its ctx becomes done
    | Check | Acquire | GiveUp | Refuse      // its Dispatch call
    | Return(o: Outcome) | Ack | Nack | Release | Finish  // its handler goroutine

  datatype Event = Call | On(i: nat, a: Action)

  const Init := State([], 0, 0, false)

  /** After a panic escapes a handler goroutine, the process is gone. */
  predicate Enabled(max: nat, s: State, e: Event) {
    && !s.crashed
    && (e.Call? || (e.i < |s.ds| && Ready(max, s, s.ds[e.i], e.a)))
  }

  predicate Ready(max: nat, s: State, d: Delivery, a: Action) {
    match a
    case Cancel => !d.ctxDone
    case Check => d.phase == Calling
    case Acquire => d.phase == Waiting && s.slots < max
    case GiveUp => d.phase == Waiting && d.ctxDone
    case Refuse => d.phase == Refusing
    case Return(_) => d.phase == Handling
    case Ack => d.phase == Acking
    case Nack => d.phase == Nacking
    case Release => d.phase == Unwinding && s.slots > 0
    case Finish => d.phase == Leaving && s.wg > 0
  }

  /** What a step does to its own delivery. */
  function Next(d: Delivery, a: Action): Delivery {
    match a
    case Cancel => d.(ctxDone := true)
    case Check => d.(phase := if d.ctxDone then Refusing else Waiting)
    case Acquire => d.(phase := Handling)
    case GiveUp => d.(phase := Refusing)
    case Refuse => d.(phase := Done, nacks := d.nacks + 1)
    case Return(o) => d.(phase := if o == Ok then Acking else Nacking, outcome := Some(o))
    case Ack => d.(phase := Unwinding, acks := d.acks + 1)
    case Nack => d.(phase := Unwinding, nacks := d.nacks + 1)
    case Release => d.(phase := Leaving)
    case Finish => d.(phase := Done)
  }

  function Apply(max: nat, s: State, e: Event): State
    requires Enabled(max, s, e)
  {
    if e.Call? then s.(ds := s.ds + [Delivery(Calling, false, None, 0, 0)]) else
      State(
        s.ds[e.i := Next(s.ds[e.i], e.a)],
        if e.a.Acquire? then s.slots + 1 else if e.a.Release? then s.slots - 1 else s.slots,
        if e.a.Acquire? then s.wg + 1 else if e.a.Finish? then s.wg - 1 else s.wg,
        e.a.Finish? && s.ds[e.i].outcome.Some? && s.ds[e.i].outcome.value.Panic?)
  }

  predicate Legal(max: nat, s: State, es: seq<Event>)
    decreases es
  {
    es == [] || (Enabled(max, s, es[0]) && Legal(max, Apply(max, s, es[0]), es[1..]))
  }

  function Exec(max: nat, s: State, es: seq<Event>): State
    requires Legal(max, s, es)
    decreases es
  {
    if es == [] then s else Exec(max, Apply(max, s, es[0]), es[1..])
  }

  // ----- what every run keeps

  predicate HoldsSlot(p: Phase) {
    p == Handling || p == Acking || p == Nacking || p == Unwinding
  }

  predicate InGroup(p: Phase) {
    HoldsSlot(p) || p == Leaving
  }

  /** The number of deliveries whose phase matches p. */
  function Num(ds: seq<Delivery>, p: Phase -> bool): nat {
    if ds == [] then 0 else (if p(ds[0].phase) then 1 else 0) + Num(ds[1..], p)
  }

  /** Dispatch has handed the delivery on, or is done with it. */
  predicate DispatchReturned(d: Delivery) {
    d.phase != Calling && d.phase != Waiting && d.phase != Refusing
  }

  /** One acknowledgement call, an ack exactly when the handler returned nil, and a handler ran unless ctx was done. */
  predicate AcknowledgedOnce(d: Delivery) {
    d.acks + d.nacks == 1 && (d.acks == 1 <==> d.outcome == Some(Ok)) && (d.outcome == None ==> d.ctxDone)
  }

  predicate Local(d: Delivery) {
    match d.phase
    case Calling => d.acks == d.nacks == 0 && d.outcome == None
    case Waiting => d.acks == d.nacks == 0 && d.outcome == None
    case Refusing => d.acks == d.nacks == 0 && d.outcome == None && d.ctxDone
    case Handling => d.acks == d.nacks == 0 && d.outcome == None
    case Acking => d.acks == d.nacks == 0 && d.outcome == Some(Ok)
    case Nacking => d.acks == d.nacks == 0 && d.outcome.Some? && d.outcome.value != Ok
    case _ => AcknowledgedOnce(d)
  }

  predicate Inv(max: nat, s: State) {
    && (forall i | 0 <= i < |s.ds| :: Local(s.ds[i]))
    && s.slots == Num(s.ds, HoldsSlot) <= max
    && s.wg == Num(s.ds, InGroup)
  }

  lemma {:induction false} NumAppend(ds: seq<Delivery>, d: Delivery, p: Phase -> bool)
    ensures Num(ds + [d], p) == Num(ds, p) + if p(d.phase) then 1 else 0
  {
    if ds == [] {
      assert ds + [d] == [d];
    } else {
      assert (ds + [d])[1..] == ds[1..] + [d];
      NumAppend(ds[1..], d, p);
    }
  }

  lemma {:induction false} NumUpdate(ds: seq<Delivery>, i: nat, d: Delivery, p: Phase -> bool)
    requires i < |ds|
    ensures Num(ds[i := d], p) + (if p(ds[i].phase) then 1 else 0) == Num(ds, p) + (if p(d.phase) then 1 else 0)
  {
    if i == 0 {
      assert ds[i := d] == [d] + ds[1..];
    } else {
      assert ds[i := d] == [ds[0]] + ds[1..][i - 1 := d];
      NumUpdate(ds[1..], i - 1, d, p);
    }
  }

  lemma {:induction false} NumMonotone(ds: seq<Delivery>, p: Phase -> bool, q: Phase -> bool)
    requires forall x :: p(x) ==> q(x)
    ensures Num(ds, p) <= Num(ds, q)
  {
    if ds != [] {
      NumMonotone(ds[1..], p, q);
    }
  }

  lemma {:induction false} NumPositive(ds: seq<Delivery>, i: nat, p: Phase -> bool)
    requires i < |ds| && p(ds[i].phase)
    ensures Num(ds, p) > 0
  {
    if i > 0 {
      NumPositive(ds[1..], i - 1, p);
    }
  }

  lemma NextKeepsLocal(max: nat, s: State, d: Delivery, a: Action)
    requires Local(d) && Ready(max, s, d, a)
    ensures Local(Next(d, a))
    ensures HoldsSlot(Next(d, a).phase) <==> a.Acquire? || (HoldsSlot(d.phase) && !a.Release?)
    ensures InGroup(Next(d, a).phase) <==> a.Acquire? || (InGroup(d.phase) && !a.Finish?)
    ensures a.Acquire? ==> !InGroup(d.phase)
    ensures a.Release? ==> HoldsSlot(d.phase)
    ensures a.Finish? ==> InGroup(d.phase) && !HoldsSlot(d.phase)
  {
  }

  lemma StepKeepsInv(max: nat, s: State, e: Event)
    requires Inv(max, s) && Enabled(max, s, e)
    ensures Inv(max, Apply(max, s, e))
  {
    var t := Apply(max, s, e);
    if e.Call? {
      NumAppend(s.ds, t.ds[|s.ds|], HoldsSlot);
      NumAppend(s.ds, t.ds[|s.ds|], InGroup);
    } else {
      var d := s.ds[e.i];
      NextKeepsLocal(max, s, d, e.a);
      NumUpdate(s.ds, e.i, Next(d, e.a), HoldsSlot);
      NumUpdate(s.ds, e.i, Next(d, e.a), InGroup);
    }
  }

  lemma {:induction false} RunKeepsInv(max: nat, s: State, es: seq<Event>)
    requires Inv(max, s) && Legal(max, s, es)
    ensures Inv(max, Exec(max, s, es))
    decreases es
  {
    if es != [] {
      StepKeepsInv(max, s, es[0]);
      RunKeepsInv(max, Apply(max, s, es[0]), es[1..]);
    }
  }

  /** At most max handlers run at the same time, in every run. */
  lemma AtMostMaxHandlers(max: nat, es: seq<Event>)
    requires Legal(max, Init, es)
    ensures Num(Exec(max, Init, es).ds, p => p == Handling) <= max
  {
    RunKeepsInv(max, Init, es);
    NumMonotone(Exec(max, Init, es).ds, p => p == Handling, HoldsSlot);
  }

  /**
   * Exactly-once acknowledgement: whenever Wait can return, each delivery whose Dispatch call returned has had exactly
   * one Ack or Nack call, an Ack if and only if its handler ran and returned nil, and a Nack without handling only if
   * its ctx was done.
   */
  lemma WaitMeansAcknowledged(max: nat, es: seq<Event>, i: nat)
    requires Legal(max, Init, es) && i < |Exec(max, Init, es).ds|
    requires Exec(max, Init, es).wg == 0 && DispatchReturned(Exec(max, Init, es).ds[i])
    ensures AcknowledgedOnce(Exec(max, Init, es).ds[i])
  {
    var s := Exec(max, Init, es);
    RunKeepsInv(max, Init, es);
    if InGroup(s.ds[i].phase) {
      NumPositive(s.ds, i, InGroup);
    }
  }

  /**
   * A delivery that is dispatched when its ctx is done already is nacked without being handled: in every run it is
   * never acked, and once its Dispatch call has returned it was nacked once.
   */
  lemma {:induction false} DoneCtxMeansRefused(max: nat, s: State, es: seq<Event>, i: nat)
    requires Legal(max, s, es) && i < |s.ds| && s.ds[i].outcome == None && s.ds[i].ctxDone
    requires s.ds[i].phase == Calling || s.ds[i].phase == Refusing || s.ds[i].phase == Done
    ensures i < |Exec(max, s, es).ds|
    ensures var d := Exec(max, s, es).ds[i];
      && d.outcome == None && d.acks == s.ds[i].acks
      && (d.phase == Calling || d.phase == Refusing || d.phase == Done)
      && (DispatchReturned(s.ds[i]) ==> DispatchReturned(d))
      && d.nacks == s.ds[i].nacks + if DispatchReturned(d) && !DispatchReturned(s.ds[i]) then 1 else 0
    decreases es
  {
    if es != [] {
      var e, t := es[0], Apply(max, s, es[0]);
      assert t.ds[i] == if e.On? && e.i == i then Next(s.ds[i], e.a) else s.ds[i];
      DoneCtxMeansRefused(max, t, es[1..], i);
    }
  }

  /** The action is possible, and after it the delivery is nacked by its Dispatch call, without having been handled. */
  ghost predicate Refuses(max: nat, s: State, i: nat, a: Action)
    requires i < |s.ds|
  {
    Enabled(max, s, On(i, a)) &&
    var t := Apply(max, s, On(i, a));
    Enabled(max, t, On(i, Refuse)) &&
    var u := Apply(max, t, On(i, Refuse));
    u == s.(ds := s.ds[i := s.ds[i].(phase := Done, nacks := s.ds[i].nacks + 1)])
  }

  /**
   * A delivery whose ctx becomes done while it waits for a slot, or before Dispatch looks at it, need not wait any
   * longer, whatever the slots.
   */
  lemma CancelledNeedNotWait(max: nat, s: State, i: nat)
    requires !s.crashed && i < |s.ds| && s.ds[i].ctxDone
    requires s.ds[i].phase == Waiting || s.ds[i].phase == Calling
    ensures exists a :: a != Acquire && Refuses(max, s, i, a)
  {
    var a := if s.ds[i].phase == Waiting then GiveUp else Check;
    assert Refuses(max, s, i, a);
  }

  /** The state after some steps, if they are possible. */
  function After(max: nat, s: State, es: seq<Event>): Option<State>
    decreases es
  {
    if es == [] then Some(s)
    else if Enabled(max, s, es[0]) then After(max, Apply(max, s, es[0]), es[1..]) else None
  }

  /** The ctx of a delivery may become done at any time. */
  lemma MayBeCancelled(max: nat, s: State, i: nat)
    requires !s.crashed && i < |s.ds| && !s.ds[i].ctxDone
    ensures After(max, s, [On(i, Cancel)]) == Some(s.(ds := s.ds[i := s.ds[i].(ctxDone := true)]))
  {
    assert [On(i, Cancel)][1..] == [];
  }

  /** While a slot is free and nothing is cancelled, a new delivery is handled without waiting for any other one. */
  lemma FreeSlotMeansHandled(max: nat, s: State)
    requires !s.crashed && s.slots < max
    ensures After(max, s, [Call, On(|s.ds|, Check), On(|s.ds|, Acquire)]) ==
            Some(s.(ds := s.ds + [Delivery(Handling, false, None, 0, 0)], slots := s.slots + 1, wg := s.wg + 1))
  {
    var i := |s.ds|;
    var es := [Call, On(i, Check), On(i, Acquire)];
    assert es[1..] == [On(i, Check), On(i, Acquire)] && es[1..][1..] == [On(i, Acquire)] && es[1..][1..][1..] == [];
    var t := Apply(max, s, Call);
    var u := Apply(max, t, On(i, Check));
    assert u.ds == s.ds + [Delivery(Waiting, false, None, 0, 0)];
    assert Apply(max, u, On(i, Acquire)).ds == s.ds + [Delivery(Handling, false, None, 0, 0)];
    assert After(max, u, [On(i, Acquire)]) == After(max, Apply(max, u, On(i, Acquire)), []);
  }

  /** After a panic has gone on past Handle, nothing happens any more. */
  lemma NothingAfterCrash(max: nat, s: State, es: seq<Event>)
    requires Legal(max, s, es) && s.crashed
    ensures es == []
  {
  }

  // ----- every delivery is settled

  function PhaseWeight(p: Phase): nat {
    match p
    case Calling => 7
    case Waiting => 6
    case Refusing => 1
    case Handling => 5
    case Acking => 4
    case Nacking => 4
    case Unwinding => 3
    case Leaving => 2
    case Done => 0
  }

  function Weight(ds: seq<Delivery>): nat {
    if ds == [] then 0 else PhaseWeight(ds[0].phase) + (if ds[0].ctxDone then 0 else 1) + Weight(ds[1..])
  }

  lemma {:induction false} WeightUpdate(ds: seq<Delivery>, i: nat, d: Delivery)
    requires i < |ds|
    ensures Weight(ds[i := d]) + PhaseWeight(ds[i].phase) + (if ds[i].ctxDone then 0 else 1) ==
            Weight(ds) + PhaseWeight(d.phase) + (if d.ctxDone then 0 else 1)
  {
    if i == 0 {
      assert ds[i := d] == [d] + ds[1..];
    } else {
      assert ds[i := d] == [ds[0]] + ds[1..][i - 1 := d];
      WeightUpdate(ds[1..], i - 1, d);
    }
  }

  lemma {:induction false} WeightAppend(ds: seq<Delivery>, d: Delivery)
    ensures Weight(ds + [d]) == Weight(ds) + PhaseWeight(d.phase) + if d.ctxDone then 0 else 1
  {
    if ds == [] {
      assert ds + [d] == [d];
    } else {
      assert (ds + [d])[1..] == ds[1..] + [d];
      WeightAppend(ds[1..], d);
    }
  }

  function Calls(es: seq<Event>): nat {
    if es == [] then 0 else (if es[0].Call? then 1 else 0) + Calls(es[1..])
  }

  /** A run with n Dispatch calls has at most 9 * n steps. */
  lemma {:induction false} RunIsBounded(max: nat, s: State, es: seq<Event>)
    requires Legal(max, s, es)
    ensures |es| <= Weight(s.ds) + 9 * Calls(es)
    decreases es
  {
    if es != [] {
      var e, t := es[0], Apply(max, s, es[0]);
      if e.Call? {
        WeightAppend(s.ds, t.ds[|s.ds|]);
      } else {
        WeightUpdate(s.ds, e.i, t.ds[e.i]);
      }
      RunIsBounded(max, t, es[1..]);
    }
  }

  /** No delivery can take a step, whatever new Dispatch calls or cancellations may come. */
  ghost predicate Standstill(max: nat, s: State) {
    forall i, a :: Enabled(max, s, On(i, a)) ==> a == Cancel
  }

  lemma StandstillPhase(max: nat, s: State, i: nat)
    requires Inv(max, s) && !s.crashed && Standstill(max, s) && i < |s.ds|
    ensures s.ds[i].phase == Done || (s.ds[i].phase == Waiting && s.slots == max)
  {
    var d := s.ds[i];
    if HoldsSlot(d.phase) {
      NumPositive(s.ds, i, HoldsSlot);
    }
    if InGroup(d.phase) {
      NumPositive(s.ds, i, InGroup);
    }
    assert Enabled(max, s, On(i, Check)) <==> d.phase == Calling;
    assert Enabled(max, s, On(i, Acquire)) <==> d.phase == Waiting && s.slots < max;
    assert Enabled(max, s, On(i, Refuse)) <==> d.phase == Refusing;
    assert Enabled(max, s, On(i, Return(Ok))) <==> d.phase == Handling;
    assert Enabled(max, s, On(i, Ack)) <==> d.phase == Acking;
    assert Enabled(max, s, On(i, Nack)) <==> d.phase == Nacking;
    assert Enabled(max, s, On(i, Release)) <==> d.phase == Unwinding;
    assert Enabled(max, s, On(i, Finish)) <==> d.phase == Leaving;
  }

  lemma {:induction false} NumNone(ds: seq<Delivery>, p: Phase -> bool)
    requires forall i | 0 <= i < |ds| :: !p(ds[i].phase)
    ensures Num(ds, p) == 0
  {
    if ds != [] {
      NumNone(ds[1..], p);
    }
  }

  /**
   * No delivery is forgotten: when none of them can take a step any more, and no handler panicked, every one of them
   * is done and was acknowledged once. With RunIsBounded, that point is always reached.
   */
  lemma StandstillMeansAcknowledged(max: nat, es: seq<Event>, i: nat)
    requires max > 0 && Legal(max, Init, es) && i < |Exec(max, Init, es).ds|
    requires !Exec(max, Init, es).crashed && Standstill(max, Exec(max, Init, es))
    ensures Exec(max, Init, es).ds[i].phase == Done && AcknowledgedOnce(Exec(max, Init, es).ds[i])
  {
    var s := Exec(max, Init, es);
    RunKeepsInv(max, Init, es);
    forall j | 0 <= j < |s.ds| ensures !HoldsSlot(s.ds[j].phase) {
      StandstillPhase(max, s, j);
    }
    NumNone(s.ds, HoldsSlot);
    StandstillPhase(max, s, i);
  }
}
