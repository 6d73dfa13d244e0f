/**
 * ChannelSubscriber (core/subscriber/channel.go) with its Dispatcher, as the loops of the code over the fields that its
 * goroutines share. Receive, drain and Dispatch run in the goroutine of the loop; the handler goroutines and ctx may
 * act between any two of its actions, in Interfere.
 *
 * The code may block for ever, so each wait is watched for some number of times that is left open, and a method says
 * whether the code came to its end or still waits. The ghost fields record where the loop is and which steps were
 * taken, so that the methods prove that the code refines the step system of DeliveryEngine.
 */
module ChannelSubscriber {
  import opened DeliveryEngine
  import opened DeliveryThresholds

  /** What a receive from the input channel may find. */
  datatype Arrival = Nothing | Closed | NilMessage | Message(m: Msg)

  /** What became of a message given to Dispatch. Waiting means that Dispatch has not returned yet. */
  datatype Dispatched = Handled | Nacked | Waiting

  /** The arms of the select of Receive. */
  datatype Arm = DoneArm | RetryArm | InputArm(arrival: Arrival)

  /** What the turns of the loop of Receive change, and ctx. */
  datatype Snapshot = Snapshot(ctxDone: bool, taken: multiset<Msg>, retry: seq<Msg>, retried: seq<Msg>)

  /** A turn of the loop of Receive goes on with the next one, ends with a return, or has not ended yet. */
  datatype Progress = GoesOn | Ends | Waits

  class Subscriber {
    const maxInFlight: nat
    // Receive
    var ctxDone: bool
    var retry: seq<Msg>
    // the Dispatcher
    var slots: nat
    var wg: nat
    // the handler goroutines, by what they are doing
    var running: multiset<Msg>
    var nacking: multiset<Msg>
    var releasing: nat
    var finishing: nat
    // the history
    var taken: multiset<Msg>
    var acked: multiset<Msg>
    var retried: seq<Msg>        // the messages taken from retry, in order
    ghost var pc: Pc
    ghost var run: seq<Event>

    ghost function View(): State
      reads this
    {
      State(pc, ctxDone, running, nacking, releasing, finishing, slots, wg, retry, taken, acked)
    }

    /** What was done so far is a run of the engine. */
    ghost predicate Tracked()
      reads this
    {
      Legal(maxInFlight, Init, run) && View() == Exec(maxInFlight, Init, run)
    }

    /** NewChannelSubscriber, and the start of Receive. */
    constructor (maxInFlight: int)
      ensures this.maxInFlight == if maxInFlight <= 0 then 1 else maxInFlight
      ensures Tracked() && run == [] && retried == []
    {
      this.maxInFlight := if maxInFlight <= 0 then 1 else maxInFlight;
      ctxDone, retry := false, [];
      slots, wg := 0, 0;
      running, nacking, releasing, finishing := multiset{}, multiset{}, 0, 0;
      taken, acked, retried := multiset{}, multiset{}, [];
      pc, run := Selecting, [];
    }

    /** A step was taken in state s. */
    ghost method Record(s: State, e: Event)
      requires Legal(maxInFlight, Init, run) && s == Exec(maxInFlight, Init, run)
      requires Enabled(maxInFlight, s, e) && View() == Apply(maxInFlight, s, e)
      modifies `run
      ensures Tracked() && run == old(run) + [e]
    {
      Cons(maxInFlight, s, e, []);
      ExecConcat(maxInFlight, Init, run, [e]);
      run := run + [e];
    }

    /** A step of the loop that only goes to another point of the code. */
    ghost method Go(e: Event, to: Pc)
      requires Tracked() && Enabled(maxInFlight, View(), e)
      requires Apply(maxInFlight, View(), e) == View().(pc := to)
      modifies `run, `pc
      ensures Tracked() && run == old(run) + [e] && pc == to
    {
      var s := View();
      pc := to;
      Record(s, e);
    }

    // ----- the handler goroutines

    /** Handle: the handler returned nil, and its message is acked. */
    method HandlerSucceeds(m: Msg)
      requires Tracked() && m in running
      modifies `run, `running, `releasing, `acked
      ensures Tracked() && run == old(run) + [HandlerOk(m)]
    {
      ghost var s := View();
      running, acked, releasing := running - multiset{m}, acked + multiset{m}, releasing + 1;
      Record(s, HandlerOk(m));
    }

    /** Handle: the handler failed, and its message is about to be nacked. */
    method HandlerFails(m: Msg)
      requires Tracked() && m in running
      modifies `run, `running, `nacking
      ensures Tracked() && run == old(run) + [HandlerErr(m)]
    {
      ghost var s := View();
      running, nacking := running - multiset{m}, nacking + multiset{m};
      Record(s, HandlerErr(m));
    }

    /** The nack of a handler goroutine sends the message to retry, which has room. */
    method HandlerNacks(m: Msg)
      requires Tracked() && m in nacking && |retry| < RetryCap(maxInFlight)
      modifies `run, `retry, `nacking, `releasing
      ensures Tracked() && run == old(run) + [NackSend(m)] && retry == old(retry) + [m]
    {
      ghost var s := View();
      retry, nacking, releasing := retry + [m], nacking - multiset{m}, releasing + 1;
      Record(s, NackSend(m));
    }

    /** The first deferred step: the slot is given back. */
    method HandlerReleases()
      requires Tracked() && releasing > 0 && slots > 0
      modifies `run, `slots, `releasing, `finishing
      ensures Tracked() && run == old(run) + [Release]
    {
      ghost var s := View();
      slots, releasing, finishing := slots - 1, releasing - 1, finishing + 1;
      Record(s, Release);
    }

    /** The second deferred step: the wait group is told. */
    method HandlerFinishes()
      requires Tracked() && finishing > 0 && wg > 0
      modifies `run, `wg, `finishing
      ensures Tracked() && run == old(run) + [Finish]
    {
      ghost var s := View();
      wg, finishing := wg - 1, finishing - 1;
      Record(s, Finish);
    }

    method Cancelled()
      requires Tracked() && !ctxDone
      modifies `run, `ctxDone
      ensures Tracked() && ctxDone && run == old(run) + [Cancel]
    {
      ghost var s := View();
      ctxDone := true;
      Record(s, Cancel);
    }

    /** The handler goroutines and ctx take any number of steps. */
    method Interfere()
      requires Tracked()
      modifies `run, `ctxDone, `retry, `slots, `wg, `running, `nacking, `releasing, `finishing, `acked
      ensures Tracked() && (old(ctxDone) ==> ctxDone) && old(retry) <= retry
    {
      var n: nat := *;
      while n > 0
        invariant Tracked() && (old(ctxDone) ==> ctxDone) && old(retry) <= retry
      {
        n := n - 1;
        var m: Msg, kind: nat := *, *;
        if kind == 0 && m in running {
          HandlerSucceeds(m);
        } else if kind == 1 && m in running {
          HandlerFails(m);
        } else if kind == 2 && m in nacking && |retry| < RetryCap(maxInFlight) {
          HandlerNacks(m);
        } else if kind == 3 && releasing > 0 && slots > 0 {
          HandlerReleases();
        } else if kind == 4 && finishing > 0 && wg > 0 {
          HandlerFinishes();
        } else if kind == 5 && !ctxDone {
          Cancelled();
        }
      }
    }

    // ----- Dispatch

    /** retry <- msg, which has room, in the nack of Dispatch. */
    method SendToRetry(m: Msg, origin: Origin)
      requires Tracked() && pc == NackingInLoop(m, origin) && |retry| < RetryCap(maxInFlight)
      modifies `run, `pc, `retry
      ensures Tracked() && run == old(run) + [LoopNack] && pc == Resume(origin) && retry == old(retry) + [m]
    {
      ghost var s := View();
      retry, pc := retry + [m], Resume(origin);
      Record(s, LoopNack);
    }

    /** The nack of Dispatch waits for room in retry, and goes on waiting only if there is none. */
    method NackInLoop(m: Msg, origin: Origin, looks: nat) returns (sent: bool)
      requires Tracked() && pc == NackingInLoop(m, origin) && looks > 0
      modifies `run, `pc, `ctxDone, `retry, `slots, `wg, `running, `nacking, `releasing, `finishing, `acked
      ensures Tracked() && (old(ctxDone) ==> ctxDone) && old(retry) <= retry
      ensures pc == if sent then Resume(origin) else NackingInLoop(m, origin)
      ensures if sent then retry != [] && retry[|retry| - 1] == m else |retry| >= RetryCap(maxInFlight)
    {
      sent := false;
      var watched := looks;
      while watched > 0 && !sent
        invariant Tracked() && (old(ctxDone) ==> ctxDone) && old(retry) <= retry
        invariant pc == if sent then Resume(origin) else NackingInLoop(m, origin)
        invariant sent ==> retry != [] && retry[|retry| - 1] == m
        invariant watched < looks && !sent ==> |retry| >= RetryCap(maxInFlight)
      {
        watched := watched - 1;
        Interfere();
        if |retry| < RetryCap(maxInFlight) {
          SendToRetry(m, origin);
          sent := true;
        }
      }
    }

    /** A free slot is taken, and a goroutine handles the message. */
    method Spawn(m: Msg, origin: Origin)
      requires Tracked() && pc == Acquiring(m, origin) && slots < maxInFlight
      modifies `run, `pc, `slots, `wg, `running
      ensures Tracked() && run == old(run) + [Acquire] && pc == Resume(origin)
      ensures running == old(running) + multiset{m} && slots == old(slots) + 1
    {
      ghost var s := View();
      slots, wg, running, pc := slots + 1, wg + 1, running + multiset{m}, Resume(origin);
      Record(s, Acquire);
    }

    /**
     * The select of Dispatch: a slot, and then a goroutine for the message, or a done ctx. If both are ready either may
     * be taken, and it goes on waiting only if none is.
     */
    method SelectSlot(m: Msg, origin: Origin, looks: nat) returns (r: Dispatched)
      requires Tracked() && pc == Acquiring(m, origin) && looks > 0
      modifies `run, `pc, `ctxDone, `retry, `slots, `wg, `running, `nacking, `releasing, `finishing, `acked
      ensures Tracked() && (old(ctxDone) ==> ctxDone) && old(retry) <= retry
      ensures match r
        case Handled => pc == Resume(origin) && m in running && slots <= maxInFlight
        case Nacked => pc == NackingInLoop(m, origin) && ctxDone
        case Waiting => pc == Acquiring(m, origin) && slots >= maxInFlight && !ctxDone
    {
      r := Waiting;
      var watched := looks;
      while watched > 0
        invariant Tracked() && (old(ctxDone) ==> ctxDone) && old(retry) <= retry && pc == Acquiring(m, origin)
        invariant watched < looks ==> slots >= maxInFlight && !ctxDone
      {
        watched := watched - 1;
        Interfere();
        var slot: bool := *;
        if slots < maxInFlight && (slot || !ctxDone) {
          Spawn(m, origin);
          return Handled;
        } else if ctxDone {
          Go(GiveUp, NackingInLoop(m, origin));
          return Nacked;
        }
      }
    }

    /**
     * Dispatch of a copy of the message. When it returns, the message is with a goroutine that holds a slot, or it is
     * in retry and ctx is done; with a done ctx it is never handled. It goes on waiting only if it has to.
     */
    method Dispatch(m: Msg, origin: Origin, looks: nat) returns (r: Dispatched)
      requires Tracked() && pc == Checking(m, origin) && looks > 0
      modifies `run, `pc, `ctxDone, `retry, `slots, `wg, `running, `nacking, `releasing, `finishing, `acked
      ensures Tracked() && (old(ctxDone) ==> ctxDone) && old(retry) <= retry
      ensures if r.Waiting? then InDispatch(pc) && Held(pc) == multiset{m} && MustWait() else pc == Resume(origin)
      ensures r.Handled? ==> m in running && slots <= maxInFlight && !old(ctxDone)
      ensures r.Nacked? ==> ctxDone && retry != [] && retry[|retry| - 1] == m
    {
      r := Nacked;
      if !ctxDone {
        Go(CheckCtx, Acquiring(m, origin));
        r := SelectSlot(m, origin, looks);
      } else {
        Go(CheckCtx, NackingInLoop(m, origin));
      }
      if r.Nacked? {
        var sent := NackInLoop(m, origin, looks);
        r := if sent then Nacked else Waiting;
      }
    }

    // ----- Receive

    /** A step of the goroutine of the loop. */
    predicate OfLoop(e: Event) {
      !OfHandler(e) && !e.Cancel?
    }

    /** What the loop waits for did not happen yet. */
    ghost predicate MustWait()
      reads this
    {
      match pc
      case Acquiring(_, _) => slots >= maxInFlight && !ctxDone
      case NackingInLoop(_, _) => |retry| >= RetryCap(maxInFlight)
      case Stopping => wg > 0
      case DrainWaiting => wg > 0
      case _ => false
    }

    /** The loop waits for something exactly when it is not at its end and no step of it is possible. */
    lemma MustWaitIff()
      requires maxInFlight > 0
      ensures MustWait() <==> !pc.Returned? && forall e :: OfLoop(e) ==> !Enabled(maxInFlight, View(), e)
    {
      var s := View();
      var next := match pc
        case Selecting => TakeNil
        case Checking(_, _) => CheckCtx
        case Acquiring(_, _) => if ctxDone then GiveUp else Acquire
        case NackingInLoop(_, _) => LoopNack
        case Stopping => StopDone
        case DrainWaiting => DrainDone
        case DrainChecking => DrainCheck
        case DrainSelecting => if retry == [] then DrainEmpty else DrainTake
        case Returned => TakeNil;
      assert OfLoop(next);
      assert !MustWait() && !pc.Returned? ==> Enabled(maxInFlight, s, next);
    }

    /** Wait: it returns at a moment at which the wait group is at zero, and goes on waiting only if it is not. */
    method Wait(looks: nat) returns (done: bool)
      requires Tracked() && looks > 0
      modifies `run, `ctxDone, `retry, `slots, `wg, `running, `nacking, `releasing, `finishing, `acked
      ensures Tracked() && (old(ctxDone) ==> ctxDone) && old(retry) <= retry && (done <==> wg == 0)
    {
      done := false;
      var watched := looks;
      while watched > 0 && !done
        invariant Tracked() && (old(ctxDone) ==> ctxDone) && old(retry) <= retry
        invariant (done ==> wg == 0) && (watched < looks && !done ==> wg > 0)
      {
        watched := watched - 1;
        Interfere();
        done := wg == 0;
      }
    }

    /** msg := <-retry. */
    method TakeFromRetry(origin: Origin) returns (msg: Msg)
      requires Tracked() && retry != [] && pc == if origin == FromReceive then Selecting else DrainSelecting
      modifies `run, `pc, `retry, `retried
      ensures Tracked() && pc == Checking(msg, origin) && old(retry) == [msg] + retry
      ensures retried == old(retried) + [msg]
    {
      msg := retry[0];
      ghost var s := View();
      retry, retried, pc := retry[1..], retried + [msg], Checking(msg, origin);
      Record(s, if origin == FromReceive then TakeRetry else DrainTake);
    }

    /** dispatch, in an iteration of one of the two loops. */
    method DispatchInTurn(m: Msg, origin: Origin, looks: nat) returns (p: Progress)
      requires Tracked() && pc == Checking(m, origin) && looks > 0
      modifies `run, `pc, `ctxDone, `retry, `slots, `wg, `running, `nacking, `releasing, `finishing, `acked
      ensures Tracked() && (old(ctxDone) ==> ctxDone) && old(retry) <= retry
      ensures match p
        case GoesOn => pc == Resume(origin)
        case Waits => InDispatch(pc) && MustWait()
        case Ends => false
    {
      Interfere();
      var r := Dispatch(m, origin, looks);
      p := if r.Waiting? then Waits else GoesOn;
    }

    /** The case of the select of drain that takes a message. */
    method DrainOne(looks: nat) returns (p: Progress)
      requires Tracked() && pc.DrainSelecting? && looks > 0 && retry != []
      modifies `run, `pc, `ctxDone, `retry, `retried, `slots, `wg, `running, `nacking, `releasing, `finishing, `acked
      ensures Tracked() && (old(ctxDone) ==> ctxDone) && retried == old(retried) + [old(retry)[0]]
      ensures match p
        case GoesOn => pc.DrainWaiting?
        case Waits => InDispatch(pc) && MustWait()
        case Ends => false
    {
      var msg := TakeFromRetry(FromDrain);
      p := DispatchInTurn(msg, FromDrain, looks);
    }

    /**
     * The end of an iteration of drain: the test of ctx, and the select with its default. It returns exactly when ctx
     * is done or retry is empty, and otherwise dispatches the first message of retry.
     */
    method DrainNext(looks: nat) returns (p: Progress)
      requires Tracked() && pc.DrainChecking? && looks > 0
      modifies `run, `pc, `ctxDone, `retry, `retried, `slots, `wg, `running, `nacking, `releasing, `finishing, `acked
      ensures Tracked() && (old(ctxDone) ==> ctxDone)
      ensures match p
        case GoesOn => pc.DrainWaiting?
        case Waits => InDispatch(pc) && MustWait()
        case Ends => pc.Returned? && (ctxDone || retry == [])
      ensures old(ctxDone) ==> p.Ends?
      ensures |retried| == |old(retried)| + if p.Ends? then 0 else 1
      ensures !p.Ends? && old(retry) != [] ==> retried == old(retried) + [old(retry)[0]]
    {
      Interfere();
      if ctxDone {
        Go(DrainCheck, Returned);
        return Ends;
      }
      Go(DrainCheck, DrainSelecting);
      Interfere();
      if retry == [] {
        Go(DrainEmpty, Returned);
        return Ends;
      }
      p := DrainOne(looks);
    }

    /**
     * drain: one message after the other, each after a Wait, until ctx is done or retry is empty. It goes on with
     * another turn, or waits, only if it has to.
     */
    method Drain(turns: nat, looks: nat) returns (p: Progress)
      requires Tracked() && pc.DrainWaiting? && looks > 0
      modifies `run, `pc, `ctxDone, `retry, `retried, `slots, `wg, `running, `nacking, `releasing, `finishing, `acked
      ensures Tracked() && (old(ctxDone) ==> ctxDone)
      ensures match p
        case GoesOn => pc.DrainWaiting? && |retried| == |old(retried)| + turns
        case Waits => MustWait()
        case Ends => pc.Returned? && (ctxDone || retry == [])
      ensures old(ctxDone) && turns > 0 ==> !p.GoesOn?
    {
      p := GoesOn;
      var watched := turns;
      while watched > 0 && p.GoesOn?
        invariant 0 <= watched <= turns && Tracked() && (old(ctxDone) ==> ctxDone)
        invariant match p
          case GoesOn => pc.DrainWaiting? && |retried| == |old(retried)| + turns - watched
          case Waits => MustWait()
          case Ends => pc.Returned? && (ctxDone || retry == [])
        invariant old(ctxDone) && watched < turns ==> !p.GoesOn?
      {
        watched := watched - 1;
        var done := Wait(looks);
        if done {
          Go(DrainDone, DrainChecking);
          p := DrainNext(looks);
        } else {
          p := Waits;
        }
      }
    }

    /** The ctx.Done arm: it returns as soon as its Wait does. */
    method Stop(looks: nat) returns (p: Progress)
      requires Tracked() && pc.Selecting? && ctxDone && looks > 0
      modifies this
      ensures Tracked() && ctxDone && taken == old(taken) && !p.GoesOn?
      ensures if p.Ends? then pc.Returned? else pc.Stopping? && MustWait()
    {
      Go(SeeDone, Stopping);
      p := Waits;
      var done := Wait(looks);
      if done {
        Go(StopDone, Returned);
        p := Ends;
      }
    }

    /** What an arrival adds to the messages taken. */
    function Brings(arm: Arm): multiset<Msg> {
      if arm.InputArm? && arm.arrival.Message? then multiset{arm.arrival.m} else multiset{}
    }

    /** A message arrives. */
    method Take(m: Msg)
      requires Tracked() && pc.Selecting?
      modifies `run, `pc, `taken
      ensures Tracked() && pc == Checking(m, FromReceive) && taken == old(taken) + multiset{m}
    {
      ghost var s := View();
      taken, pc := taken + multiset{m}, Checking(m, FromReceive);
      Record(s, TakeInput(m));
    }

    /** The input arm: a message is dispatched, and a closed input leads to drain. */
    method ReceiveInput(arrival: Arrival, turns: nat, looks: nat) returns (p: Progress)
      requires Tracked() && pc.Selecting? && looks > 0
      modifies this
      ensures Tracked() && (old(ctxDone) ==> ctxDone)
      ensures taken == old(taken) + Brings(InputArm(arrival))
      ensures !arrival.Closed? ==> retried == old(retried) && old(retry) <= retry
      ensures arrival.Closed? ==> !p.GoesOn?
      ensures match p
        case GoesOn => pc.Selecting?
        case Waits => MustWait() || arrival.Closed?
        case Ends => arrival.Closed? && pc.Returned?
      ensures p.Waits? && arrival.Closed? && !MustWait() ==> pc.DrainWaiting?
    {
      match arrival
      case Closed =>
        Go(SeeClosed, DrainWaiting);
        p := Drain(turns, looks);
        p := if p.GoesOn? then Waits else p;
      case Message(m) =>
        Take(m);
        p := DispatchInTurn(m, FromReceive, looks);
      case NilMessage =>
        Go(TakeNil, Selecting);
        p := GoesOn;
      case Nothing => p := GoesOn;
    }

    /**
     * The select of Receive. Any arm that is ready may be taken, and one that is ready when it is chosen is taken: a
     * done ctx ends the loop, a nacked message is dispatched again, and a message that arrives is dispatched.
     */
    method Select(arm: Arm, turns: nat, looks: nat) returns (p: Progress)
      requires Tracked() && pc.Selecting? && looks > 0
      modifies this
      ensures Tracked() && (old(ctxDone) ==> ctxDone) && taken == old(taken) + Brings(arm)
      ensures (p.GoesOn? ==> pc.Selecting?) && (p.Ends? <==> pc.Returned?) && (p.GoesOn? ==> old(retried) <= retried)
      ensures arm.DoneArm? && old(ctxDone) ==> !p.GoesOn?
      ensures arm.RetryArm? && old(retry) != [] ==> retried == old(retried) + [old(retry)[0]]
      ensures p.GoesOn? && !arm.RetryArm? ==> retried == old(retried) && old(retry) <= retry
      ensures arm == InputArm(Closed) ==> !p.GoesOn?
      ensures p.Waits? && !MustWait() ==> pc.DrainWaiting? && arm == InputArm(Closed)
    {
      Interfere();
      p := GoesOn;
      match arm
      case DoneArm =>
        if ctxDone {
          p := Stop(looks);
        }
      case RetryArm =>
        if retry != [] {
          var msg := TakeFromRetry(FromReceive);
          p := DispatchInTurn(msg, FromReceive, looks);
        }
      case InputArm(arrival) => p := ReceiveInput(arrival, turns, looks);
    }

    function AllBrought(arms: seq<Arm>): multiset<Msg> {
      if arms == [] then multiset{} else AllBrought(arms[..|arms| - 1]) + Brings(arms[|arms| - 1])
    }

    /** What the loop has from its turns. */
    ghost function Now(): Snapshot
      reads this
    {
      Snapshot(ctxDone, taken, retry, retried)
    }

    /**
     * What the loop has done while it went on over some arms: every message that arrived was taken, a ctx that was done
     * and a closed input were not chosen, and if retry was chosen, its first message was taken from it.
     */
    predicate WentOn(seen: seq<Arm>, was: Snapshot, now: Snapshot) {
      && now.taken == was.taken + AllBrought(seen) && InputArm(Closed) !in seen
      && (was.ctxDone ==> now.ctxDone && DoneArm !in seen)
      && (was.retry != [] ==>
            if RetryArm in seen then was.retried + [was.retry[0]] <= now.retried
            else now.retried == was.retried && was.retry <= now.retry)
    }

    lemma GoesOnAgain(seen: seq<Arm>, arm: Arm, was: Snapshot, mid: Snapshot, now: Snapshot)
      requires WentOn(seen, was, mid) && arm != InputArm(Closed) && now.taken == mid.taken + Brings(arm)
      requires mid.ctxDone ==> now.ctxDone && arm != DoneArm
      requires mid.retried <= now.retried && (arm != RetryArm ==> now.retried == mid.retried && mid.retry <= now.retry)
      requires arm == RetryArm && mid.retry != [] ==> now.retried == mid.retried + [mid.retry[0]]
      ensures WentOn(seen + [arm], was, now)
    {
      assert (seen + [arm])[..|seen|] == seen;
    }

    /** One turn of the loop, after those that saw the given arms. */
    method Turn(ghost seen: seq<Arm>, arm: Arm, turns: nat, looks: nat, ghost was: Snapshot) returns (p: Progress)
      requires Tracked() && pc.Selecting? && looks > 0 && WentOn(seen, was, Now())
      modifies this
      ensures Tracked() && (p.GoesOn? ==> pc.Selecting?) && (p.Ends? <==> pc.Returned?)
      ensures p.GoesOn? ==> WentOn(seen + [arm], was, Now())
      ensures p.Waits? && !MustWait() ==> pc.DrainWaiting? && arm == InputArm(Closed)
    {
      ghost var mid := Now();
      p := Select(arm, turns, looks);
      if p.GoesOn? {
        GoesOnAgain(seen, arm, was, mid, Now());
      }
    }

    /**
     * The loop of Receive, for any choice of arms that its select makes. While it goes on it takes what the arms offer,
     * and it does not go on after a done ctx or a closed input was chosen.
     */
    method Loop(arms: seq<Arm>, turns: nat, looks: nat) returns (p: Progress)
      requires Tracked() && pc.Selecting? && looks > 0
      modifies this
      ensures Tracked() && (p.Ends? <==> pc.Returned?) && (p.GoesOn? ==> pc.Selecting?)
      ensures p.GoesOn? ==> WentOn(arms, old(Now()), Now())
      ensures p.Waits? && !MustWait() ==> pc.DrainWaiting? && InputArm(Closed) in arms
    {
      ghost var was := Now();
      var i := 0;
      p := GoesOn;
      while i < |arms| && p.GoesOn?
        invariant i <= |arms| && Tracked()
        invariant (p.GoesOn? ==> pc.Selecting?) && (p.Ends? <==> pc.Returned?)
        invariant p.GoesOn? ==> WentOn(arms[..i], was, Now())
        invariant p.Waits? && !MustWait() ==> pc.DrainWaiting? && i > 0 && arms[i - 1] == InputArm(Closed)
      {
        assert arms[..i + 1] == arms[..i] + [arms[i]];
        p := Turn(arms[..i], arms[i], turns, looks, was);
        i := i + 1;
      }
      assert p.GoesOn? ==> arms[..i] == arms;
    }

    /** What holds of Receive wherever it is. */
    lemma ReceiveMeans()
      requires Tracked() && maxInFlight > 0
      ensures Conserved(View()) && |running| <= maxInFlight
      ensures pc.Returned? ==> wg == 0 && running == nacking == multiset{} && taken == acked + multiset(retry)
      ensures pc.Returned? && !ctxDone ==> taken == acked
      ensures ctxDone && Peak(maxInFlight, Init, run) <= maxInFlight + 1 && Quiescent(maxInFlight, View()) ==>
        pc.Returned?
    {
      RunKeepsInv(maxInFlight, Init, run);
      if pc.Returned? {
        ReturnLeavesNoHandler(maxInFlight, run);
      }
      if Quiescent(maxInFlight, View()) {
        QuiescentShapes(maxInFlight, View());
      }
    }

    /**
     * Receive, from the beginning or any later turn. At every moment each message taken from the input is acked, in a
     * handler, in a nack, in retry or held by the loop. While it goes on it has taken every message that arrived, and
     * neither a done ctx nor a closed input was chosen. When it has returned no goroutine is left, only the messages in
     * retry were dropped, and none if ctx is not done. If it has neither gone on nor returned, it waits because it has
     * to, or is in drain. If never more than maxInFlight + 1 messages were outstanding, it cannot hang once ctx is
     * done: it stands still only by having returned.
     */
    method Receive(arms: seq<Arm>, turns: nat, looks: nat) returns (p: Progress)
      requires Tracked() && pc.Selecting? && maxInFlight > 0 && looks > 0
      modifies this
      ensures Tracked() && (p.Ends? <==> pc.Returned?)
      ensures Conserved(View()) && |running| <= maxInFlight
      ensures p.GoesOn? ==> pc.Selecting? && taken == old(taken) + AllBrought(arms) && InputArm(Closed) !in arms
      ensures p.GoesOn? && old(ctxDone) ==> DoneArm !in arms
      ensures p.GoesOn? && old(retry) != [] && RetryArm in arms ==> old(retried) + [old(retry)[0]] <= retried
      ensures p.Waits? ==> MustWait() || (pc.DrainWaiting? && InputArm(Closed) in arms)
      ensures p.Ends? ==> wg == 0 && running == nacking == multiset{} && taken == acked + multiset(retry)
      ensures p.Ends? && !ctxDone ==> taken == acked
      ensures ctxDone && Peak(maxInFlight, Init, run) <= maxInFlight + 1 && Quiescent(maxInFlight, View()) ==> p.Ends?
    {
      p := Loop(arms, turns, looks);
      ReceiveMeans();
    }
  }
}
