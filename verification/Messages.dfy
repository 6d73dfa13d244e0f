/**
 * Messages, their contexts, and Dispatcher.Handle: core/message/message.go, core/subscriber/dispatcher.go and the
 * ContextTimeout middleware of core/message/middleware/flow.go.
 *
 * A context is a value; which contexts were cancelled, and the time, belong to the World. Metadata is a Go map, so it
 * is an object of its own that two messages could share.
 */
module Messages {
  import opened Outcomes
  import opened Wrappers

  datatype Value = Str(s: string) | Other(id: nat)

  // ----- contexts

  datatype Context =
    | Root(id: nat, deadline: Option<int>)                // the context a message was received with
    | Timed(parent: Context, id: nat, expiry: int)        // context.WithTimeout
    | Detached(parent: Context)                           // context.WithoutCancel

  predicate DoneAt(ctx: Context, now: int, cancelled: set<nat>) {
    match ctx
    case Root(id, deadline) => id in cancelled || (deadline.Some? && deadline.value <= now)
    case Timed(parent, id, expiry) => id in cancelled || expiry <= now || DoneAt(parent, now, cancelled)
    case Detached(_) => false
  }

  lemma {:induction false} DoneStays(ctx: Context, now: int, cancelled: set<nat>, more: set<nat>)
    requires DoneAt(ctx, now, cancelled) && cancelled <= more
    ensures DoneAt(ctx, now, more)
  {
    if ctx.Timed? && DoneAt(ctx.parent, now, cancelled) {
      DoneStays(ctx.parent, now, cancelled, more);
    }
  }

  function Earlier(a: Option<int>, t: int): Option<int> {
    if a.Some? && a.value <= t then a else Some(t)
  }

  function DeadlineOf(ctx: Context): Option<int> {
    match ctx
    case Root(_, deadline) => deadline
    case Timed(parent, _, expiry) => Earlier(DeadlineOf(parent), expiry)
    case Detached(_) => None
  }

  /** Where the values of a context come from. */
  function RootOf(ctx: Context): Context {
    match ctx
    case Root(_, _) => ctx
    case Timed(parent, _, _) => RootOf(parent)
    case Detached(parent) => RootOf(parent)
  }

  /** What cancels a context: the contexts it is derived from, up to one that is detached. */
  function Cancellers(ctx: Context): set<nat> {
    match ctx
    case Root(id, _) => {id}
    case Timed(parent, id, _) => {id} + Cancellers(parent)
    case Detached(_) => {}
  }

  /** A context is done exactly when it was cancelled, or one it is derived from was, or its deadline has passed. */
  lemma {:induction false} DoneMeans(ctx: Context, now: int, cancelled: set<nat>)
    ensures DoneAt(ctx, now, cancelled) <==>
            Cancellers(ctx) * cancelled != {} || (DeadlineOf(ctx).Some? && DeadlineOf(ctx).value <= now)
  {
    match ctx
    case Root(id, _) => assert id in cancelled <==> id in {id} * cancelled;
    case Timed(parent, id, _) =>
      DoneMeans(parent, now, cancelled);
      assert Cancellers(ctx) * cancelled == {id} * cancelled + Cancellers(parent) * cancelled;
      assert id in cancelled <==> id in {id} * cancelled;
    case Detached(_) =>
  }

  class World {
    var now: int
    var cancelled: set<nat>
    var nextId: nat

    predicate Valid()
      reads this
    {
      forall id | id in cancelled :: id < nextId
    }

    method WithTimeout(parent: Context, timeout: int) returns (ctx: Context)
      requires Valid()
      modifies `nextId
      ensures Valid() && nextId == old(nextId) + 1
      ensures ctx == Timed(parent, old(nextId), now + timeout) && ctx.id !in cancelled
    {
      ctx := Timed(parent, nextId, now + timeout);
      nextId := nextId + 1;
    }

    method Cancel(id: nat)
      requires Valid() && id < nextId
      modifies `cancelled
      ensures Valid() && cancelled == old(cancelled) + {id}
    {
      cancelled := cancelled + {id};
    }

    method Pass(delay: nat)
      modifies `now
      ensures now == old(now) + delay
    {
      now := now + delay;
    }
  }

  // ----- messages

  class Metadata {
    var entries: map<string, Value>

    constructor (entries: map<string, Value>)
      ensures this.entries == entries
    {
      this.entries := entries;
    }
  }

  class Message {
    var id: string
    var metadata: Metadata?
    var payload: Value
    var ctx: Context

    constructor (ctx: Context, payload: Value)
      ensures id == "" && this.payload == payload && this.ctx == ctx
      ensures metadata != null && fresh(metadata) && metadata.entries == map[]
    {
      this.id, this.payload, this.ctx := "", payload, ctx;
      this.metadata := new Metadata(map[]);
    }

    /** Writing to a nil map panics. */
    method WithMetadata(key: string, value: Value) returns (panicked: bool)
      modifies metadata
      ensures panicked <==> metadata == null
      ensures metadata != null ==> metadata.entries == old(metadata.entries)[key := value]
    {
      panicked := metadata == null;
      if metadata != null {
        metadata.entries := metadata.entries[key := value];
      }
    }

    method SetContext(ctx: Context)
      modifies `ctx
      ensures this.ctx == ctx
    {
      this.ctx := ctx;
    }

    /** The fields of the message, and what its metadata holds. */
    function Content(): (string, Option<map<string, Value>>, Value, Context)
      reads this, metadata
    {
      (id, if metadata == null then None else Some(metadata.entries), payload, ctx)
    }

    /** The copy equals the message and shares no metadata with it. */
    method Copy() returns (c: Message)
      ensures fresh(c) && c.Content() == Content()
      ensures c.metadata != null ==> fresh(c.metadata)
    {
      c := new Message(ctx, payload);
      c.id := id;
      if metadata == null {
        c.metadata := null;
      } else {
        c.metadata := new Metadata(metadata.entries);
      }
    }
  }

  /** A handler may change everything it can reach from the message it is given. */
  method Tamper(msg: Message)
    modifies msg, msg.metadata
  {
    msg.id, msg.payload := *, *;
    msg.ctx := *;
    if msg.metadata != null {
      msg.metadata.entries := *;
    }
    msg.metadata := null;
  }

  /** Each attempt of ChannelSubscriber handles a copy, so no attempt sees what the ones before it changed. */
  method Attempts(original: Message, n: nat) returns (last: Message)
    ensures last.Content() == original.Content() == old(original.Content())
    ensures fresh(last)
  {
    last := original.Copy();
    for i := 0 to n
      invariant fresh(last) && (last.metadata != null ==> fresh(last.metadata))
      invariant last.Content() == original.Content() == old(original.Content())
    {
      Tamper(last);
      last := original.Copy();
    }
  }

  // ----- handling a delivery

  /** When each ContextTimeout layer sets its deadline: delays[i] passes before layer i, outermost first. */
  function LayerDeadlines(now: int, timeouts: seq<int>, delays: seq<nat>): seq<int>
    requires |delays| > |timeouts|
    decreases |timeouts|
  {
    if timeouts == [] then [] else
      [now + delays[0] + timeouts[0]] + LayerDeadlines(now + delays[0], timeouts[1..], delays[1..])
  }

  function Total(delays: seq<nat>): nat {
    if delays == [] then 0 else delays[0] + Total(delays[1..])
  }

  /** The deadline of layer i: its timeout, counted from when the layers before it are done with their delays. */
  lemma {:induction false} LayerDeadlineIs(now: int, timeouts: seq<int>, delays: seq<nat>, i: nat)
    requires |delays| > |timeouts| && i < |timeouts|
    ensures |LayerDeadlines(now, timeouts, delays)| == |timeouts|
    ensures LayerDeadlines(now, timeouts, delays)[i] == now + Total(delays[..i + 1]) + timeouts[i]
    decreases |timeouts|
  {
    assert delays[..i + 1] == [delays[0]] + delays[1..][..i];
    if i > 0 {
      LayerDeadlineIs(now + delays[0], timeouts[1..], delays[1..], i - 1);
    } else {
      assert delays[1..][..0] == [];
      if |timeouts| > 1 {
        LayerDeadlineIs(now + delays[0], timeouts[1..], delays[1..], 0);
      }
    }
  }

  /** The least of an optional deadline and a list of them. */
  ghost predicate IsLeastDeadline(r: Option<int>, base: Option<int>, ts: seq<int>) {
    && (r == base || (r.Some? && r.value in ts))
    && (r == None ==> base == None && ts == [])
    && (base.Some? ==> r.Some? && r.value <= base.value)
    && (forall t | t in ts :: r.Some? && r.value <= t)
  }

  /** The deliveries' acknowledgement functions, and the error callbacks of DispatchOptions. */
  datatype Call = AckWith(ctx: Context) | NackWith(ctx: Context) | AckError | NackError

  class AckLog {
    const onAckError: bool     // whether the callbacks are given
    const onNackError: bool
    var calls: seq<Call>

    /** Ack is called, and the callback if it fails. */
    method Ack(ctx: Context, fails: bool)
      modifies this
      ensures calls == old(calls) + [AckWith(ctx)] + (if fails && onAckError then [AckError] else [])
    {
      calls := calls + [AckWith(ctx)];
      if fails && onAckError {
        calls := calls + [AckError];
      }
    }

    /** nack: Nack is called, and the callback if it fails. */
    method Nack(ctx: Context, fails: bool)
      modifies this
      ensures calls == old(calls) + [NackWith(ctx)] + (if fails && onNackError then [NackError] else [])
    {
      calls := calls + [NackWith(ctx)];
      if fails && onNackError {
        calls := calls + [NackError];
      }
    }

    /** Exactly one acknowledgement was added, with a context that is never done, and its failure was reported. */
    ghost predicate Acknowledged(before: seq<Call>, ack: bool, ctx: Context, fails: bool)
      reads this
    {
      && calls == before + [if ack then AckWith(ctx) else NackWith(ctx)] +
                  (if !fails then [] else if ack then (if onAckError then [AckError] else [])
                   else (if onNackError then [NackError] else []))
      && forall now, cancelled :: !DoneAt(ctx, now, cancelled)
    }
  }

  /**
   * A handler wrapped in ContextTimeout middlewares, outermost first. seen is the context of the message when the
   * handler runs. Each layer replaces the context of the message, and leaves it cancelled.
   */
  method RunWithTimeouts(msg: Message, timeouts: seq<int>, delays: seq<nat>, w: World) returns (seen: Context)
    requires |delays| > |timeouts| && w.Valid()
    modifies msg`ctx, w
    ensures w.Valid() && w.nextId >= old(w.nextId) && old(w.cancelled) <= w.cancelled
    ensures IsLeastDeadline(DeadlineOf(seen), old(DeadlineOf(msg.ctx)), LayerDeadlines(old(w.now), timeouts, delays))
    ensures RootOf(seen) == old(RootOf(msg.ctx)) == RootOf(msg.ctx)
    ensures if timeouts == [] then msg.ctx == old(msg.ctx) else forall now :: DoneAt(msg.ctx, now, w.cancelled)
    decreases |timeouts|
  {
    w.Pass(delays[0]);
    if timeouts == [] {
      seen := msg.ctx;
    } else {
      var ctx := w.WithTimeout(msg.ctx, timeouts[0]);
      msg.SetContext(ctx);
      seen := RunWithTimeouts(msg, timeouts[1..], delays[1..], w);
      ghost var before := w.cancelled;
      w.Cancel(ctx.id);
      forall now | DoneAt(msg.ctx, now, before) {
        DoneStays(msg.ctx, now, before, w.cancelled);
      }
    }
  }

  /** A handler whose context was cancelled leaves a message whose context is done. */
  method CancelDeadline(msg: Message, ctx: Context, w: World)
    requires w.Valid() && ctx.Timed? && ctx.id < w.nextId
    modifies w`cancelled
    ensures w.Valid() && w.cancelled == old(w.cancelled) + {ctx.id}
    ensures forall now :: DoneAt(ctx, now, w.cancelled)
    ensures forall now | DoneAt(msg.ctx, now, old(w.cancelled)) :: DoneAt(msg.ctx, now, w.cancelled)
  {
    ghost var before := w.cancelled;
    w.Cancel(ctx.id);
    forall now | DoneAt(msg.ctx, now, before) {
      DoneStays(msg.ctx, now, before, w.cancelled);
    }
  }

  /**
   * Handle, with its three ways to end: the handler panics, fails, or returns nil. The acknowledgement gets a context
   * that is never done, whatever the middlewares did to the context of the message; the handler's deadline is the
   * least of the processing timeout and those of the middlewares; exactly one acknowledgement is made, an ack if and
   * only if the handler returned nil; and a panic continues after its nack.
   */
  method Handle(msg: Message, processingTimeout: int, timeouts: seq<int>, delays: seq<nat>, outcome: Outcome,
                ackFails: bool, w: World, log: AckLog)
    returns (seen: Context, repanics: bool)
    requires |delays| > |timeouts| && w.Valid()
    modifies msg`ctx, w, log
    ensures log.Acknowledged(old(log.calls), HandleOutcome(outcome).acked, Detached(old(msg.ctx)), ackFails)
    ensures repanics == HandleOutcome(outcome).repanics
    ensures IsLeastDeadline(DeadlineOf(seen),
                            if processingTimeout > 0 then Some(old(w.now) + processingTimeout) else None,
                            LayerDeadlines(old(w.now), timeouts, delays))
    ensures RootOf(seen) == RootOf(Detached(old(msg.ctx))) == old(RootOf(msg.ctx))
    ensures processingTimeout > 0 || timeouts != [] ==> forall now :: DoneAt(msg.ctx, now, w.cancelled)
  {
    var ackCtx := Detached(msg.ctx);
    var msgCtx := ackCtx;
    assert DeadlineOf(ackCtx) == None && RootOf(ackCtx) == RootOf(msg.ctx);
    if processingTimeout > 0 {
      msgCtx := w.WithTimeout(ackCtx, processingTimeout);
    }
    msg.SetContext(msgCtx);
    seen := RunWithTimeouts(msg, timeouts, delays, w);
    repanics := false;
    match outcome {
      case Panic(_) =>
        log.Nack(ackCtx, ackFails);
        repanics := true;
      case Err(_) => log.Nack(ackCtx, ackFails);
      case Ok => log.Ack(ackCtx, ackFails);
    }
    if processingTimeout > 0 {
      CancelDeadline(msg, msgCtx, w);
    }
  }

  /**
   * Dispatch of one delivery, in which ctx is done at the test, or wins the select against a slot, or does not: one
   * acknowledgement in any case, with a context that is never done, and an ack only if the handler ran and returned
   * nil. A refused delivery keeps its context.
   */
  method Dispatch(msg: Message, ctxDone: bool, slotFirst: bool, processingTimeout: int, timeouts: seq<int>,
                  delays: seq<nat>, outcome: Outcome, ackFails: bool, w: World, log: AckLog)
    returns (handled: bool, repanics: bool)
    requires |delays| > |timeouts| && w.Valid()
    modifies msg`ctx, w, log
    ensures handled <==> !ctxDone && slotFirst
    ensures log.Acknowledged(old(log.calls), handled && outcome == Ok, Detached(old(msg.ctx)), ackFails)
    ensures repanics <==> handled && outcome.Panic?
    ensures !handled ==> msg.ctx == old(msg.ctx)
  {
    if !ctxDone {
      if slotFirst {
        var _, panics := Handle(msg, processingTimeout, timeouts, delays, outcome, ackFails, w, log);
        return true, panics;
      }
    }
    log.Nack(Detached(msg.ctx), ackFails);
    return false, false;
  }
}
