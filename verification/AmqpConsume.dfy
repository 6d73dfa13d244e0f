/**
 * The AMQP re-consume loop: ReconnectingChannel.Consume, IsClosed and Close (amqp/channel.go), and the loop of
 * Subscriber.Receive that takes its deliveries (amqp/subscriber.go).
 *
 * The goroutine of Consume and the loop of Receive meet at the unbuffered deliveries channel: a send and its receive
 * are one step, HandOff. Between two meetings the goroutine runs on its own, in Advance. Everything else, that is the
 * broker, ctx, the developer who may close the channel and the watcher that replaces a lost channel, may act at any
 * time, in Interfere. The broker has a budget of what it sends and accepts, after which sessions end and waits are
 * cut short by ctx; since the budget is arbitrary, every finite behaviour is covered.
 */
module AmqpConsume {
  import opened Wrappers
  import opened Sequences

  type Delivery = nat

  /** Why the goroutine of Consume ended. */
  datatype Exit = CtxDone | ClosedByDeveloper | CancelledByBroker

  /** Where the goroutine of Consume is: on its way to the next send, in it, or ended with its output closed. */
  datatype Status = Running | Sending(m: Delivery) | Ended(exit: Exit)

  /** What Close returns: amqp.ErrClosed, or what closing the amqp channel returned. */
  datatype CloseResult = ErrClosed | ChannelClosed(failed: bool)

  datatype FirstConsume = Consuming | QueueNotFound | ConsumeFailed(code: nat)

  datatype ReceiveResult = Nil | ErrQueueNotFound | ErrConsume(code: nat) | ErrChannelClosed

  /** More elements at the end of the last of several sequences. */
  function Extend<T>(ss: seq<seq<T>>, more: seq<T>): seq<seq<T>>
    requires ss != []
  {
    ss[..|ss| - 1] + [ss[|ss| - 1] + more]
  }

  lemma FlattenExtend(sessions: seq<seq<Delivery>>, more: seq<Delivery>)
    requires sessions != []
    ensures Flatten(Extend(sessions, more)) == Flatten(sessions) + more
  {
    var last := |sessions| - 1;
    FlattenAppend(sessions[..last], sessions[last]);
    FlattenAppend(sessions[..last], sessions[last] + more);
    assert sessions[..last] + [sessions[last]] == sessions;
  }

  /** In every outage the retry strategy saw 0, 1, 2, .. */
  predicate CountUp(outages: seq<seq<nat>>) {
    forall i, j | 0 <= i < |outages| && 0 <= j < |outages[i]| :: outages[i][j] == j
  }

  /** A reconnecting channel, with one Consume call on it and the Receive call that takes its deliveries. */
  class Consumption {
    // the channel and what it depends on
    var ctxDone: bool
    var closed: bool                      // the closed flag of the ReconnectingChannel
    var channel: nat                      // its current amqp channel
    var lost: set<nat>                    // the amqp channels that are closed
    var budget: nat
    // the goroutine of Consume
    var status: Status
    var consumingOn: nat
    var reconnectionAttempts: nat
    // what the two loops did
    var sessions: seq<seq<Delivery>>      // the deliveries received in each consume session
    var outages: seq<seq<nat>>            // what the retry strategy was asked, in each outage
    var emitted: seq<Delivery>            // what was sent on the deliveries channel
    var dropped: seq<Delivery>            // what was received but not sent
    var outputCloses: nat
    var dispatched: seq<Delivery>
    ghost var lostAtEnd: set<nat>         // the amqp channels that were closed when the goroutine ended
    ghost var lastRead: nat               // what the current amqp channel was when it was last read
    ghost var sessionsOn: seq<nat>        // the amqp channel of each consume session
    ghost var tried: seq<nat>             // the amqp channels on which a consume was tried after a loss

    // ----- what the goroutine keeps

    /** What was received is what was sent, but for a delivery that is being sent or was dropped. */
    ghost predicate NothingLost()
      reads this
    {
      Flatten(sessions) == emitted + if status.Sending? then [status.m] else dropped
    }

    /** Each outage that ended led to a new session, and in each the retry strategy saw 0, 1, 2, .. */
    ghost predicate OutagesCounted()
      reads this
    {
      && CountUp(outages) && |sessions| <= |outages| + 1
      && (!status.Ended? ==> reconnectionAttempts == 0 && |sessions| == |outages| + 1)
    }

    /** The output is closed once, at the end, for one of three reasons. */
    ghost predicate EndedForAReason()
      reads this
    {
      && outputCloses == (if status.Ended? then 1 else 0)
      && |dropped| <= 1 && (dropped != [] ==> status == Ended(CtxDone))
      && (status.Ended? ==>
            match status.exit
            case CtxDone => ctxDone
            case ClosedByDeveloper => closed
            case CancelledByBroker => consumingOn !in lostAtEnd && lostAtEnd <= lost)
    }

    /** A session ends for good or in an outage, and an outage begins only when the channel of the session is lost. */
    ghost predicate OutagesAreLosses()
      reads this
    {
      && |sessionsOn| == |sessions| && (forall i | 0 <= i < |outages| :: i < |sessionsOn| && sessionsOn[i] in lost)
      && (!status.Ended? ==> sessionsOn != [] && sessionsOn[|sessionsOn| - 1] == consumingOn)
    }

    ghost predicate Going()
      reads this
    {
      OutagesAreLosses() &&
      sessions != [] && |sessions| >= |outages| && NothingLost() && OutagesCounted() && EndedForAReason()
    }

    // ----- what the others do

    /** ctx stays done, the flag stays set, and a closed channel stays closed. Only the current one is replaced. */
    method Interfere()
      modifies `ctxDone, `closed, `lost, `channel
      ensures (old(ctxDone) ==> ctxDone) && (old(closed) ==> closed) && old(lost) <= lost
      ensures old(Going()) ==> Going()
    {
      var done: bool, close: bool, more: set<nat> := *, *, *;
      ctxDone := ctxDone || done;
      closed := closed || close;
      lost := lost + more;
      channel := *;
    }

    method IsClosed() returns (r: bool)
      ensures r == closed
    {
      r := closed;
    }

    /**
     * Close: the flag is tested and then set, in two steps, before the current amqp channel is closed. So two calls
     * may both close it, but when one has returned the flag is set, and unless it was set before, the channel that
     * was current is closed.
     */
    method Close() returns (r: CloseResult)
      modifies `ctxDone, `closed, `lost, `channel
      ensures closed && (r.ErrClosed? <==> old(closed)) && old(lost) <= lost
      ensures r.ErrClosed? ==> lost == old(lost) && channel == old(channel)
      ensures r.ChannelClosed? ==> channel in lost
      ensures old(Going()) ==> Going()
    {
      var already := IsClosed();
      if already {
        return ErrClosed;
      }
      Interfere();
      closed := true;
      Interfere();
      lost := lost + {channel};
      var failed: bool := *;
      r := ChannelClosed(failed);
    }

    /** The next delivery of the current session, or None when the session ended. */
    method Next() returns (m: Option<Delivery>)
      requires sessions != []
      modifies `ctxDone, `closed, `lost, `channel, `budget, `sessions
      ensures (old(ctxDone) ==> ctxDone) && (old(closed) ==> closed) && old(lost) <= lost
      ensures sessions != [] && |sessions| == |old(sessions)|
      ensures Flatten(sessions) == Flatten(old(sessions)) + if m.Some? then [m.value] else []
      ensures if m.Some? then budget < old(budget) else budget == old(budget)
    {
      Interfere();
      var n: nat, more: bool := *, *;
      if budget == 0 || !more {
        return None;
      }
      budget := budget - 1;
      FlattenExtend(sessions, [n]);
      sessions := Extend(sessions, [n]);
      m := Some(n);
    }

    /** The select that waits for the delay of the retry strategy. It gives up only if ctx is done. */
    method Wait(attempt: nat) returns (elapsed: bool)
      requires outages != []
      modifies `ctxDone, `closed, `lost, `channel, `budget, `outages
      ensures (old(ctxDone) ==> ctxDone) && (old(closed) ==> closed) && old(lost) <= lost
      ensures outages == Extend(old(outages), [attempt])
      ensures if elapsed then budget < old(budget) else budget == old(budget) && ctxDone
    {
      outages := Extend(outages, [attempt]);
      Interfere();
      var first: bool := *;
      elapsed := budget > 0 && (first || !ctxDone);
      if elapsed {
        budget := budget - 1;
      } else {
        ctxDone := true;
      }
    }

    /** ch.Channel. */
    method CurrentChannel() returns (c: nat)
      modifies `lastRead
      ensures c == channel == lastRead
    {
      c := channel;
      lastRead := c;
    }

    /** ConsumeWithContext on an amqp channel, which is the one that was current when it was last read. */
    method Subscribe(on: nat) returns (ok: bool)
      requires on == lastRead
      modifies `ctxDone, `closed, `lost, `channel, `sessions, `sessionsOn, `tried
      ensures tried == old(tried) + [on]
      ensures sessionsOn == if ok then old(sessionsOn) + [on] else old(sessionsOn)
      ensures (old(ctxDone) ==> ctxDone) && (old(closed) ==> closed) && old(lost) <= lost
      ensures sessions == if ok then old(sessions) + [[]] else old(sessions)
      ensures Flatten(sessions) == Flatten(old(sessions))
    {
      Interfere();
      tried := tried + [on];
      ok := *;
      if ok {
        FlattenAppend(sessions, []);
        sessions := sessions + [[]];
        sessionsOn := sessionsOn + [on];
      }
    }

    // ----- the goroutine of Consume

    /** The deferred close of the output. */
    method End(exit: Exit)
      modifies `status, `outputCloses, `lostAtEnd
      ensures status == Ended(exit) && outputCloses == old(outputCloses) + 1 && lostAtEnd == lost
    {
      status, outputCloses, lostAtEnd := Ended(exit), outputCloses + 1, lost;
    }

    /** The length of the outage that is going on. */
    function Attempts(): nat
      requires outages != []
      reads this
    {
      |outages[|outages| - 1]|
    }

    /**
     * One attempt of an outage, unless ctx is done or the flag is set: the wait, and a consume on what is the current
     * channel then.
     */
    method Attempt() returns (exit: Option<Exit>, consuming: bool)
      requires outages != [] && CountUp(outages) && reconnectionAttempts == Attempts()
      modifies `ctxDone, `closed, `lost, `channel, `budget, `outages, `sessions, `reconnectionAttempts, `consumingOn
      modifies `lastRead, `sessionsOn, `tried
      ensures (old(ctxDone) ==> ctxDone) && old(lost) <= lost
      ensures sessionsOn == if consuming then old(sessionsOn) + [consumingOn] else old(sessionsOn)
      ensures CountUp(outages) && |outages| == |old(outages)| && Flatten(sessions) == Flatten(old(sessions))
      ensures |sessions| == |old(sessions)| + if consuming then 1 else 0
      ensures exit.Some? ==> !consuming && budget == old(budget) && !exit.value.CancelledByBroker?
      ensures exit.Some? ==> if exit.value.CtxDone? then ctxDone else closed && !ctxDone
      ensures old(ctxDone) || old(closed) ==> exit.Some?
      ensures exit.Some? ==> tried == old(tried) && old(Attempts()) <= Attempts() <= old(Attempts()) + 1
      ensures exit.None? ==> tried == old(tried) + [consumingOn] && Attempts() == old(Attempts()) + 1
      ensures exit.None? ==> budget < old(budget) && reconnectionAttempts == if consuming then 0 else Attempts()
    {
      Interfere();
      var isClosed := IsClosed();
      if ctxDone || isClosed {
        return Some(if ctxDone then CtxDone else ClosedByDeveloper), false;
      }
      var elapsed := Wait(reconnectionAttempts);
      if !elapsed {
        return Some(CtxDone), false;
      }
      exit, reconnectionAttempts := None, reconnectionAttempts + 1;
      consumingOn := CurrentChannel();
      consuming := Subscribe(consumingOn);
      if consuming {
        reconnectionAttempts := 0;
      }
    }

    /**
     * The inner loop of the goroutine: the channel was lost, and the channel that is current then is consumed again
     * until that succeeds, ctx is done or the flag is set. The counter of attempts lives across outages, so it must be
     * back at 0 after each of them.
     */
    method Reconsume()
      requires Going() && status.Running? && consumingOn in lost
      modifies `ctxDone, `closed, `lost, `channel, `budget, `outages, `sessions, `reconnectionAttempts, `consumingOn
      modifies `lastRead, `sessionsOn, `tried, `status, `outputCloses, `lostAtEnd
      ensures Going() && !status.Sending? && (old(ctxDone) ==> ctxDone) && old(sessionsOn) <= sessionsOn
      ensures Flatten(sessions) == old(Flatten(sessions)) && |outages| == |old(outages)| + 1
      ensures |old(tried)| <= |tried| <= |old(tried)| + Attempts() <= |tried| + if status.Running? then 0 else 1
      ensures status.Running? ==> budget < old(budget) && |sessions| == |old(sessions)| + 1
      ensures status.Ended? ==> budget <= old(budget) && !status.exit.CancelledByBroker?
    {
      outages := outages + [[]];
      var consuming := false;
      var exit: Option<Exit> := None;
      while !consuming && exit.None?
        invariant status.Running? && outputCloses == 0 && Flatten(sessions) == old(Flatten(sessions))
        invariant (old(ctxDone) ==> ctxDone) && old(lost) <= lost
        invariant sessionsOn == if consuming then old(sessionsOn) + [consumingOn] else old(sessionsOn)
        invariant CountUp(outages) && |outages| == |old(outages)| + 1
        invariant exit.None? ==> reconnectionAttempts == if consuming then 0 else Attempts()
        invariant |old(tried)| <= |tried| <= |old(tried)| + Attempts() <= |tried| + if exit.None? then 0 else 1
        invariant |sessions| == |old(sessions)| + if consuming then 1 else 0
        invariant budget <= old(budget) && (consuming ==> budget < old(budget))
        invariant exit.Some? ==> !consuming && !exit.value.CancelledByBroker?
        invariant exit.Some? ==> if exit.value.CtxDone? then ctxDone else closed
        decreases exit.None?, budget, !consuming
      {
        exit, consuming := Attempt();
      }
      if exit.Some? {
        End(exit.value);
      }
    }

    /**
     * One receive from the current session: a delivery is to be sent; when the session ended, the goroutine ends too if
     * the channel of the session is open, and an outage begins if it is lost.
     */
    method ReceiveNext()
      requires Going() && status.Running?
      modifies `ctxDone, `closed, `lost, `channel, `budget, `outages, `sessions, `reconnectionAttempts, `consumingOn
      modifies `lastRead, `sessionsOn, `tried, `status, `outputCloses, `lostAtEnd
      ensures Going() && (old(ctxDone) ==> ctxDone) && old(sessionsOn) <= sessionsOn
      ensures if status.Ended? then budget <= old(budget) else budget < old(budget)
      ensures |outages| > |old(outages)| ==> sessionsOn[|old(outages)|] in lost
    {
      var m := Next();
      if m.Some? {
        status := Sending(m.value);
      } else if consumingOn !in lost {
        End(CancelledByBroker);
      } else {
        Reconsume();
      }
    }

    /** The goroutine runs until its next send, or until it ends. */
    method Advance()
      requires Going() && status.Running?
      modifies `ctxDone, `closed, `lost, `channel, `budget, `outages, `sessions, `reconnectionAttempts, `consumingOn
      modifies `lastRead, `sessionsOn, `tried, `status, `outputCloses, `lostAtEnd
      ensures Going() && !status.Running? && (old(ctxDone) ==> ctxDone) && old(sessionsOn) <= sessionsOn
      ensures if status.Sending? then budget < old(budget) else budget <= old(budget)
    {
      while status.Running?
        invariant Going() && (old(ctxDone) ==> ctxDone) && old(sessionsOn) <= sessionsOn
        invariant if status.Sending? then budget < old(budget) else budget <= old(budget)
        decreases budget, status.Running?
      {
        ReceiveNext();
      }
    }

    /** The select that sends: a receiver takes the delivery. */
    method HandOff()
      requires Going() && status.Sending?
      modifies `status, `emitted
      ensures Going() && status == Running && emitted == old(emitted) + [old(status).m]
    {
      emitted := emitted + [status.m];
      status := Running;
    }

    /** The select that sends: ctx is done. */
    method GiveUp()
      requires Going() && status.Sending? && ctxDone
      modifies `status, `dropped, `outputCloses, `lostAtEnd
      ensures Going() && status == Ended(CtxDone) && dropped == [old(status).m]
    {
      dropped := [status.m];
      End(CtxDone);
    }

    function Rank(): nat
      reads this
    {
      match status
      case Ended(_) => 0
      case Running => 1
      case Sending(_) => 2
    }

    /**
     * The goroutine of Consume, whatever takes its deliveries, and from wherever it is. It ends, for one of exactly
     * three reasons, and then the deliveries channel is closed exactly once. What was sent is what all sessions gave,
     * in order, except that the last delivery may be missing, and then ctx is done. In every outage the retry strategy
     * is asked for the attempts 0, 1, 2, .. takes says which deliveries are taken although ctx is done; one that is
     * not is given up.
     */
    method ConsumeLoop(takes: nat -> bool)
      requires Going()
      modifies this
      ensures Going() && status.Ended? && outputCloses == 1
      ensures old(emitted) <= emitted && (status.exit.CtxDone? || emitted == Flatten(sessions))
      ensures old(ctxDone) && !takes(|old(emitted)|) ==> emitted == old(emitted)
    {
      while !status.Ended?
        invariant Going() && old(emitted) <= emitted && (old(ctxDone) ==> ctxDone)
        invariant old(ctxDone) && !takes(|old(emitted)|) ==> emitted == old(emitted)
        decreases budget, Rank()
      {
        if status.Running? {
          Advance();
        } else {
          Interfere();
          if takes(|emitted|) || !ctxDone {
            HandOff();
          } else {
            GiveUp();
          }
        }
      }
    }

    // ----- the loop of Receive

    /**
     * One turn of the loop of Receive in which ctx is not chosen and the output is not closed yet. givesUp says whether
     * the goroutine of Consume prefers a done ctx to sending.
     */
    method Turn(givesUp: bool)
      requires Going() && !status.Ended? && dispatched == emitted
      modifies this
      ensures Going() && dispatched == emitted && old(emitted) <= emitted
      ensures (old(ctxDone) ==> ctxDone) && old(sessionsOn) <= sessionsOn
      ensures old(ctxDone) && givesUp ==> emitted == old(emitted)
      ensures budget < old(budget) || (budget == old(budget) && Rank() < old(Rank()))
    {
      if status.Running? {
        Advance();
      } else {
        var m := status.m;
        if ctxDone && givesUp {
          GiveUp();
        } else {
          HandOff();
          dispatched := dispatched + [m];
        }
      }
    }

    /**
     * The loop of Receive. choices says in which turns its select prefers a done ctx; it then returns at once, while
     * the goroutine of Consume is anywhere. takes says which deliveries are sent although ctx is done.
     */
    method ReceiveLoop(choices: nat -> bool, takes: nat -> bool) returns (r: ReceiveResult)
      requires Going() && status.Running? && dispatched == emitted == []
      modifies this
      ensures Going() && dispatched == emitted && old(sessionsOn) <= sessionsOn
      ensures r == if ctxDone then Nil else ErrChannelClosed
      ensures r == ErrChannelClosed ==> status.Ended?
      ensures old(ctxDone) && (choices(0) || !takes(0)) ==> dispatched == []
    {
      var turn := 0;
      while true
        invariant Going() && dispatched == emitted && (old(ctxDone) ==> ctxDone) && old(sessionsOn) <= sessionsOn
        invariant if turn == 0 then dispatched == [] else old(ctxDone) ==> !choices(0)
        invariant old(ctxDone) && !takes(0) ==> dispatched == []
        decreases budget, Rank()
      {
        Interfere();
        if ctxDone && choices(turn) {
          return Nil;
        }
        if status.Ended? {
          return if ctxDone then Nil else ErrChannelClosed;
        }
        turn := turn + 1;
        Turn(!takes(|emitted|));
      }
    }

    /**
     * Receive dispatches each delivery as it takes it, so what it dispatches is what is sent. When ctx is done it may
     * return at once, and does if its select prefers that. It reports a closed channel only when ctx is not done, and
     * then the goroutine of Consume ended for one of the other two reasons and every delivery that was received from
     * the broker has been dispatched.
     */
    method Receive(first: FirstConsume, choices: nat -> bool, takes: nat -> bool) returns (r: ReceiveResult)
      requires sessions == [] && outages == [] && emitted == dropped == dispatched == [] && outputCloses == 0
      modifies this
      ensures dispatched == emitted
      ensures first.QueueNotFound? ==> r == ErrQueueNotFound && dispatched == []
      ensures first.ConsumeFailed? ==> r == ErrConsume(first.code) && dispatched == []
      ensures first.Consuming? ==> Going() && dispatched <= Flatten(sessions) && sessionsOn[0] == old(channel)
      ensures first.Consuming? ==> r == if ctxDone then Nil else ErrChannelClosed
      ensures first.Consuming? && old(ctxDone) && (choices(0) || !takes(0)) ==> dispatched == []
      ensures r == ErrChannelClosed ==>
        status.Ended? && !status.exit.CtxDone? && dispatched == Flatten(sessions) && outputCloses == 1
    {
      match first
      case QueueNotFound => return ErrQueueNotFound;
      case ConsumeFailed(code) => return ErrConsume(code);
      case Consuming =>
        sessions, status, reconnectionAttempts := [[]], Running, 0;
        consumingOn := CurrentChannel();
        sessionsOn := [consumingOn];
        r := ReceiveLoop(choices, takes);
    }
  }
}
