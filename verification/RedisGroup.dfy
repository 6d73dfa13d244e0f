/**
 * The consumer group protocol of the Redis subscriber (redis/subscriber.go): any number of consumers claim idle
 * entries, read new ones, dispatch them to their slots, and acknowledge them, against one stream and its pending list.
 *
 * The broker is a small trusted state. Entries are numbered in the order they were added. Consumers may crash, acks
 * may fail, and time passes between any two steps.
 */
module RedisGroup {
  import opened Sequences
  import opened Wrappers
  import Sweep = RedisSweep

  type Id = nat

  /** An entry of the pending list: whom it was delivered to last, and when. */
  datatype Pending = Pending(consumer: nat, since: int)

  /** delivered is the end of what the group was given of the stream, which it got from start on. */
  datatype Broker = Broker(
    appended: nat, start: nat, delivered: nat, pending: map<Id, Pending>, acked: set<Id>, succeeded: set<Id>)

  datatype Phase = Running | Acking | Nacking | Done

  /** A message that got a slot: when its entry was delivered to the consumer, and when its handler started. */
  datatype Handling = Handling(id: Id, delivered: int, start: int, phase: Phase)

  /** Where the loop of receive is: about to test ctx, to claim or to read, or out of the loop. */
  datatype Pc = Testing | Claiming | Reading | Stopped

  /**
   * One Receive call. cursor is where its next claim starts. queue is what is left of the last batch, which the broker
   * delivered at sent and which, once it arrived, did so at arrival; the handlings from base on belong to that batch.
   * admitted says that Dispatch has seen ctx not done for the head of the queue, and waits for a slot.
   */
  datatype Consumer = Consumer(
    alive: bool, ctxDone: bool, pc: Pc, cursor: Id,
    hs: seq<Handling>, base: nat, queue: seq<Id>, sent: int, arrived: bool, arrival: int, admitted: bool)

  datatype State = State(now: int, broker: Broker, consumers: seq<Consumer>)

  /**
   * maxInFlight, processing timeout with the ack, pendingMessageIdleTimeout, pendingMessageBatchSize, and how long the
   * entries of a claim or a read may take from the broker to the consumer.
   */
  datatype Config = Config(slots: nat, handling: int, idle: int, batch: nat, latency: nat)

  /** The processing timeout after defaulting, as NewRedisSubscriber computes it: division truncates toward zero. */
  function ProcessingTimeout(option: Option<int>, idle: int): int {
    if option.Some? then option.value else if idle >= 0 then idle * 4 / 5 else -(-idle * 4 / 5)
  }

  /** The given processing timeout, or 4/5 of the idle timeout, cut off toward zero. */
  lemma ProcessingTimeoutIs(option: Option<int>, idle: int)
    ensures var t := ProcessingTimeout(option, idle);
      && (option.Some? ==> t == option.value)
      && (option.None? && idle >= 0 ==> 5 * t <= 4 * idle < 5 * t + 5)
      && (option.None? && idle < 0 ==> 5 * t - 5 < 4 * idle <= 5 * t)
  {
  }

  /** What NewRedisSubscriber accepts in consumer group mode, with positive limits. */
  predicate Accepted(cfg: Config) {
    cfg.slots > 0 && cfg.batch > 0 && 0 < cfg.handling < cfg.idle
  }

  /**
   * The check of NewRedisSubscriber. With a consumer group and positive limits it accepts exactly the configurations
   * that the results of this model are about, and without one it accepts any processing timeout.
   */
  method NewRedisSubscriber(inGroup: bool, option: Option<int>, cfg: Config) returns (ok: bool, used: Config)
    ensures used == cfg.(handling := ProcessingTimeout(option, cfg.idle))
    ensures inGroup && cfg.slots > 0 && cfg.batch > 0 ==> (ok <==> Accepted(used))
    ensures !inGroup ==> ok
  {
    var processingTimeout := ProcessingTimeout(option, cfg.idle);
    used := cfg.(handling := processingTimeout);
    ok := !(inGroup && (processingTimeout <= 0 || processingTimeout >= cfg.idle));
  }

  /** replied says that the reply of the broker reached the consumer. */
  datatype Action =
    | Cancel                                     // ctx becomes done
    | Loop | Leave                               // the test of ctx in the loop
    | Claim(ids: seq<Id>, replied: bool)         // XAUTOCLAIM
    | Read(n: nat, replied: bool)                // XREADGROUP
    | Arrive                                     // the reply of one of the two is there
    | TimeOut                                    // XREADGROUP without a new entry
    | Fail                                       // a command fails, without having reached the broker
    | Check | Start | Drop                       // Dispatch: the test of ctx, a slot, or a nack because ctx is done
    | Return(k: nat, ok: bool)                   // the handler returns
    | Ack(k: nat, applied: bool)                 // XACK, which may not reach the broker
    | Nack(k: nat)                               // does nothing
    | Crash

  datatype Event = Tick(d: nat) | Append | Join | On(c: nat, a: Action)

  const NewConsumer := Consumer(true, false, Testing, 0, [], 0, [], 0, true, 0, false)

  /** A group that starts after the first start entries of a stream. */
  function Init(start: nat): State {
    State(0, Broker(start, start, start, map[], {}, {}), [])
  }

  function NumActive(hs: seq<Handling>): nat {
    if hs == [] then 0 else (if hs[0].phase != Done then 1 else 0) + NumActive(hs[1..])
  }

  predicate Distinct(ids: seq<Id>) {
    forall i, j | 0 <= i < j < |ids| :: ids[i] != ids[j]
  }

  // ----- XAUTOCLAIM

  /** The pending list from an ID on, in the order of the IDs. */
  function PendingFrom(b: Broker, id: Id): seq<Id>
    decreases b.delivered + 1 - id
  {
    if id > b.delivered then [] else (if id in b.pending then [id] else []) + PendingFrom(b, id + 1)
  }

  function Idle(cfg: Config, s: State): set<Id> {
    set id | id in s.broker.pending && s.now - s.broker.pending[id].since >= cfg.idle
  }

  /** The entries a claim of c takes, as RedisSweep says. */
  function ClaimReply(cfg: Config, s: State, c: Consumer): seq<Id> {
    Sweep.Claimed(PendingFrom(s.broker, c.cursor), Idle(cfg, s), cfg.batch, 10 * cfg.batch)
  }

  /** Where the next claim of c starts: after what this one looked at, or at 0-0 again. */
  function NextCursor(cfg: Config, s: State, c: Consumer): Id {
    var p := PendingFrom(s.broker, c.cursor);
    var k := Sweep.Scanned(p, Idle(cfg, s), cfg.batch, 10 * cfg.batch);
    if k < |p| then p[k] else 0
  }

  predicate Claimable(cfg: Config, s: State, ids: seq<Id>) {
    && |ids| <= cfg.batch && Distinct(ids)
    && forall i | 0 <= i < |ids| :: ids[i] in s.broker.pending && s.now - s.broker.pending[ids[i]].since >= cfg.idle
  }

  lemma {:induction false} PendingHas(b: Broker, id: Id, x: Id)
    ensures x in PendingFrom(b, id) <==> id <= x <= b.delivered && x in b.pending
    decreases b.delivered + 1 - id
  {
    if id <= b.delivered {
      PendingHas(b, id + 1, x);
    }
  }

  lemma {:induction false} PendingInOrder(b: Broker, id: Id)
    ensures Increasing(PendingFrom(b, id))
    decreases b.delivered + 1 - id
  {
    if id <= b.delivered {
      var rest := PendingFrom(b, id + 1);
      PendingInOrder(b, id + 1);
      forall i | 0 <= i < |rest| ensures rest[i] > id {
        PendingHas(b, id + 1, rest[i]);
      }
    }
  }

  /** A claim takes idle entries of the pending list, each once, and no more than a batch. */
  lemma ReplyIsClaimable(cfg: Config, s: State, c: Consumer)
    ensures Claimable(cfg, s, ClaimReply(cfg, s, c))
  {
    var p, ids := PendingFrom(s.broker, c.cursor), ClaimReply(cfg, s, c);
    PendingInOrder(s.broker, c.cursor);
    Sweep.ClaimedInOrder(p, Idle(cfg, s), cfg.batch, 10 * cfg.batch);
    forall i | 0 <= i < |ids| ensures ids[i] in Idle(cfg, s) {
      Sweep.ClaimedIsThere(p, Idle(cfg, s), cfg.batch, 10 * cfg.batch, ids[i]);
    }
  }

  predicate In(c: Consumer, k: nat, p: Phase) {
    k < |c.hs| && c.hs[k].phase == p
  }

  predicate Enabled(cfg: Config, s: State, e: Event) {
    e.On? ==> e.c < |s.consumers| && s.consumers[e.c].alive && Ready(cfg, s, s.consumers[e.c], e.a)
  }

  /** How many new entries a read gets: as many as there are, up to the limit. */
  function Unread(cfg: Config, b: Broker): int {
    if b.appended - b.delivered < cfg.slots then b.appended - b.delivered else cfg.slots
  }

  /** The loop has dispatched its last batch. */
  predicate Free(c: Consumer) {
    c.arrived && c.queue == []
  }

  predicate Ready(cfg: Config, s: State, c: Consumer, a: Action) {
    match a
    case Cancel => !c.ctxDone
    case Loop => c.pc.Testing? && Free(c) && !c.ctxDone
    case Leave => c.pc.Testing? && Free(c) && c.ctxDone
    case Claim(ids, _) => c.pc.Claiming? && Free(c) && ids == ClaimReply(cfg, s, c)
    case Read(n, _) => c.pc.Reading? && Free(c) && 0 < n == Unread(cfg, s.broker)
    case Arrive => !c.arrived
    case TimeOut => c.pc.Reading? && Free(c) && Unread(cfg, s.broker) <= 0
    case Fail => (c.pc.Claiming? || c.pc.Reading?) && Free(c)
    case Check => c.arrived && c.queue != [] && !c.admitted && !c.ctxDone
    case Start => c.arrived && c.queue != [] && c.admitted && NumActive(c.hs) < cfg.slots
    case Drop => c.arrived && c.queue != [] && c.ctxDone
    case Return(k, _) => In(c, k, Running)
    case Ack(k, _) => In(c, k, Acking)
    case Nack(k) => In(c, k, Nacking)
    case Crash => true
  }

  function NewIds(delivered: nat, n: nat): seq<Id> {
    seq(n, i => delivered + 1 + i)
  }

  /** The broker answers a claim or a read. A reply that is lost makes receive return an error. */
  function Batch(c: Consumer, ids: seq<Id>, now: int, replied: bool, next: Pc): Consumer {
    if replied then
      c.(pc := next, base := |c.hs|, queue := ids, sent := now, arrived := false, arrival := now, admitted := false)
    else c.(pc := Stopped)
  }

  function SetPhase(c: Consumer, k: nat, p: Phase): Consumer
    requires k < |c.hs|
  {
    c.(hs := c.hs[k := c.hs[k].(phase := p)])
  }

  function NextConsumer(cfg: Config, s: State, c: Consumer, a: Action): Consumer
    requires Ready(cfg, s, c, a)
  {
    match a
    case Cancel => c.(ctxDone := true)
    case Loop => c.(pc := Claiming)
    case Leave => c.(pc := Stopped)
    case Claim(ids, replied) =>
      Batch(c, ids, s.now, replied, Reading).(cursor := if replied then NextCursor(cfg, s, c) else c.cursor)
    case Read(n, replied) => Batch(c, NewIds(s.broker.delivered, n), s.now, replied, Testing)
    case Arrive => c.(arrived := true, arrival := s.now)
    case TimeOut => c.(pc := Testing)
    case Fail => c.(pc := Stopped)
    case Check => c.(admitted := true)
    case Start =>
      c.(hs := c.hs + [Handling(c.queue[0], c.sent, s.now, Running)], queue := c.queue[1..], admitted := false)
    case Drop => c.(queue := c.queue[1..], admitted := false)
    case Return(k, ok) => SetPhase(c, k, if ok then Acking else Nacking)
    case Ack(k, _) => SetPhase(c, k, Done)
    case Nack(k) => SetPhase(c, k, Done)
    case Crash => c.(alive := false, hs := [], base := 0, queue := [], arrived := true, admitted := false)
  }

  function Deliver(b: Broker, ids: seq<Id>, c: nat, now: int): Broker {
    b.(pending := b.pending + map id | id in ids :: Pending(c, now))
  }

  function NextBroker(cfg: Config, s: State, i: nat, c: Consumer, a: Action): Broker
    requires Ready(cfg, s, c, a)
  {
    var b := s.broker;
    match a
    case Claim(ids, _) => Deliver(b, ids, i, s.now)
    case Read(n, _) => Deliver(b, NewIds(b.delivered, n), i, s.now).(delivered := b.delivered + n)
    case Return(k, ok) => if ok then b.(succeeded := b.succeeded + {c.hs[k].id}) else b
    case Ack(k, applied) =>
      if applied && c.hs[k].id in b.pending then
        b.(pending := b.pending - {c.hs[k].id}, acked := b.acked + {c.hs[k].id})
      else b
    case _ => b
  }

  function Apply(cfg: Config, s: State, e: Event): State
    requires Enabled(cfg, s, e)
  {
    match e
    case Tick(d) => s.(now := s.now + d)
    case Append => s.(broker := s.broker.(appended := s.broker.appended + 1))
    case Join => s.(consumers := s.consumers + [NewConsumer])
    case On(i, a) =>
      var c := s.consumers[i];
      s.(broker := NextBroker(cfg, s, i, c, a), consumers := s.consumers[i := NextConsumer(cfg, s, c, a)])
  }

  predicate Legal(cfg: Config, s: State, es: seq<Event>)
    decreases es
  {
    es == [] || (Enabled(cfg, s, es[0]) && Legal(cfg, Apply(cfg, s, es[0]), es[1..]))
  }

  function Exec(cfg: Config, s: State, es: seq<Event>): State
    requires Legal(cfg, s, es)
    decreases es
  {
    if es == [] then s else Exec(cfg, Apply(cfg, s, es[0]), es[1..])
  }

  // ----- conservation

  /** Each entry delivered to the group is pending or acked, not both, and was handled with success if it is acked. */
  ghost predicate Conserved(b: Broker) {
    && b.start <= b.delivered <= b.appended
    && (forall id: nat :: b.start < id <= b.delivered <==> id in b.pending || id in b.acked)
    && b.pending.Keys !! b.acked
    && b.acked <= b.succeeded
  }

  /** A consumer acks only what a handler succeeded with. */
  predicate AcksSuccess(b: Broker, c: Consumer) {
    forall k | 0 <= k < |c.hs| && c.hs[k].phase == Acking :: c.hs[k].id in b.succeeded
  }

  ghost predicate GroupInv(s: State) {
    Conserved(s.broker) && forall i | 0 <= i < |s.consumers| :: AcksSuccess(s.broker, s.consumers[i])
  }

  lemma NewIdsAre(delivered: nat, n: nat)
    ensures forall id: nat :: id in NewIds(delivered, n) <==> delivered < id <= delivered + n
    ensures Distinct(NewIds(delivered, n))
  {
    forall id: nat | delivered < id <= delivered + n ensures id in NewIds(delivered, n) {
      assert NewIds(delivered, n)[id - delivered - 1] == id;
    }
  }

  lemma ActionKeepsConserved(cfg: Config, s: State, i: nat, a: Action)
    requires GroupInv(s) && Enabled(cfg, s, On(i, a))
    ensures var b := NextBroker(cfg, s, i, s.consumers[i], a);
      Conserved(b) && s.broker.succeeded <= b.succeeded &&
      AcksSuccess(b, NextConsumer(cfg, s, s.consumers[i], a))
  {
    assert AcksSuccess(s.broker, s.consumers[i]);
    match a
    case Claim(ids, _) => ReplyIsClaimable(cfg, s, s.consumers[i]);
    case Read(n, _) => NewIdsAre(s.broker.delivered, n);
    case _ =>
  }

  lemma StepKeepsGroupInv(cfg: Config, s: State, e: Event)
    requires GroupInv(s) && Enabled(cfg, s, e)
    ensures GroupInv(Apply(cfg, s, e))
  {
    if e.On? {
      ActionKeepsConserved(cfg, s, e.c, e.a);
    }
  }

  /**
   * Group conservation: in every run, whatever crashes, acks that fail, nacks, claims and shutdowns happen in it, each
   * entry delivered to the group is either pending or acked, and it was acked only after a handler returned nil for it.
   */
  lemma {:induction false} GroupConservation(cfg: Config, s: State, es: seq<Event>)
    requires GroupInv(s) && Legal(cfg, s, es)
    ensures GroupInv(Exec(cfg, s, es))
    decreases es
  {
    if es != [] {
      StepKeepsGroupInv(cfg, s, es[0]);
      GroupConservation(cfg, Apply(cfg, s, es[0]), es[1..]);
    }
  }

  lemma {:induction false} AckedStaysAcked(cfg: Config, s: State, es: seq<Event>)
    requires Legal(cfg, s, es)
    ensures s.broker.acked <= Exec(cfg, s, es).broker.acked
    decreases es
  {
    if es != [] {
      AckedStaysAcked(cfg, Apply(cfg, s, es[0]), es[1..]);
    }
  }

  /**
   * An ack that reaches the broker is final: from then on, in every run, the entry is acked and no longer pending, so
   * no consumer can claim it.
   */
  lemma AppliedAckIsFinal(cfg: Config, s: State, i: nat, k: nat, es: seq<Event>)
    requires GroupInv(s) && Enabled(cfg, s, On(i, Ack(k, true)))
    requires s.consumers[i].hs[k].id in s.broker.pending && Legal(cfg, Apply(cfg, s, On(i, Ack(k, true))), es)
    ensures var id, b := s.consumers[i].hs[k].id, Exec(cfg, Apply(cfg, s, On(i, Ack(k, true))), es).broker;
      id in b.acked && id !in b.pending
  {
    var t := Apply(cfg, s, On(i, Ack(k, true)));
    StepKeepsGroupInv(cfg, s, On(i, Ack(k, true)));
    GroupConservation(cfg, t, es);
    AckedStaysAcked(cfg, t, es);
  }

  lemma {:induction false} PendingChangesOnlyByAck(cfg: Config, s: State, es: seq<Event>, id: Id)
    requires Legal(cfg, s, es) && id in s.broker.pending
    requires forall e | e in es :: !(e.On? && e.a.Ack? && e.a.applied)
    ensures id in Exec(cfg, s, es).broker.pending
    decreases es
  {
    if es != [] {
      assert es[0] in es;
      PendingChangesOnlyByAck(cfg, Apply(cfg, s, es[0]), es[1..], id);
    }
  }

  // ----- no consumer gets stuck

  /** What may happen to a consumer at any time, without it doing anything for it. */
  predicate Befalls(a: Action) {
    a.Cancel? || a.Fail? || a.Crash? || ((a.Claim? || a.Read?) && !a.replied) || (a.Ack? && !a.applied)
  }

  lemma {:induction false} ActiveExists(hs: seq<Handling>)
    requires NumActive(hs) > 0
    ensures exists k :: 0 <= k < |hs| && hs[k].phase != Done
  {
    if hs[0].phase == Done {
      ActiveExists(hs[1..]);
      var k :| 0 <= k < |hs[1..]| && hs[1..][k].phase != Done;
      assert hs[k + 1].phase != Done;
    }
  }

  /** A handling that is under way goes on. */
  lemma HandlingGoesOn(cfg: Config, s: State, c: Consumer, k: nat)
    requires k < |c.hs| && c.hs[k].phase != Done
    ensures exists a :: Ready(cfg, s, c, a) && !Befalls(a)
  {
    match c.hs[k].phase
    case Running => assert Ready(cfg, s, c, Return(k, true));
    case Acking => assert Ready(cfg, s, c, Ack(k, true));
    case Nacking => assert Ready(cfg, s, c, Nack(k));
  }

  /** Dispatch goes on: with a slot, with the end of a handling, or with a nack because ctx is done. */
  lemma DispatchGoesOn(cfg: Config, s: State, c: Consumer)
    requires cfg.slots > 0 && c.arrived && c.queue != []
    ensures exists a :: Ready(cfg, s, c, a) && !Befalls(a)
    ensures c.ctxDone ==> Ready(cfg, s, c, Drop)
  {
    if c.ctxDone {
      assert Ready(cfg, s, c, Drop);
    } else if !c.admitted {
      assert Ready(cfg, s, c, Check);
    } else if NumActive(c.hs) < cfg.slots {
      assert Ready(cfg, s, c, Start);
    } else {
      ActiveExists(c.hs);
      var k: nat :| k < |c.hs| && c.hs[k].phase != Done;
      HandlingGoesOn(cfg, s, c, k);
    }
  }

  /** The loop goes on, whether there are new entries or not. */
  lemma LoopGoesOn(cfg: Config, s: State, c: Consumer)
    requires cfg.slots > 0 && Free(c) && !c.pc.Stopped?
    ensures exists a :: Ready(cfg, s, c, a) && !Befalls(a)
  {
    match c.pc
    case Testing => assert Ready(cfg, s, c, if c.ctxDone then Leave else Loop);
    case Claiming => assert Ready(cfg, s, c, Claim(ClaimReply(cfg, s, c), true));
    case Reading =>
      var n := Unread(cfg, s.broker);
      assert if n > 0 then Ready(cfg, s, c, Read(n, true)) else Ready(cfg, s, c, TimeOut);
  }

  /** Receive is through: its loop has ended, its last batch was dispatched or dropped, and all handlers are done. */
  predicate Through(c: Consumer) {
    c.pc.Stopped? && Free(c) && forall k | 0 <= k < |c.hs| :: c.hs[k].phase == Done
  }

  /**
   * A consumer never gets stuck: until Receive is through, there is something that it can do, whatever the others do
   * and without anything going wrong.
   */
  lemma ConsumerGoesOn(cfg: Config, s: State, i: nat)
    requires cfg.slots > 0 && i < |s.consumers| && s.consumers[i].alive && !Through(s.consumers[i])
    ensures exists a :: Enabled(cfg, s, On(i, a)) && !Befalls(a)
  {
    var c := s.consumers[i];
    if !c.arrived {
      assert Ready(cfg, s, c, Arrive) && !Befalls(Arrive);
    } else if c.queue != [] {
      DispatchGoesOn(cfg, s, c);
    } else if !c.pc.Stopped? {
      LoopGoesOn(cfg, s, c);
    } else {
      var k: nat :| k < |c.hs| && c.hs[k].phase != Done;
      HandlingGoesOn(cfg, s, c, k);
    }
    var a :| Ready(cfg, s, c, a) && !Befalls(a);
    assert Enabled(cfg, s, On(i, a));
  }

  /** The loop of a consumer ends only with a done ctx, a failed command or a lost reply. */
  lemma {:induction false} StopsForAReason(cfg: Config, s: State, es: seq<Event>, i: nat)
    requires Legal(cfg, s, es) && i < |s.consumers| && !s.consumers[i].pc.Stopped? && !s.consumers[i].ctxDone
    requires forall k | 0 <= k < |es| && es[k].On? && es[k].c == i ::
      !Befalls(es[k].a) || es[k].a.Crash? || es[k].a.Ack?
    ensures i < |Exec(cfg, s, es).consumers| && !Exec(cfg, s, es).consumers[i].pc.Stopped?
    decreases es
  {
    if es != [] {
      assert forall k | 0 <= k < |es[1..]| :: es[1..][k] == es[k + 1];
      StopsForAReason(cfg, Apply(cfg, s, es[0]), es[1..], i);
    }
  }

  /** The events of consumer i in a run that match p. */
  function Own(es: seq<Event>, i: nat, p: Action -> bool): nat {
    if es == [] then 0 else (if es[0].On? && es[0].c == i && p(es[0].a) then 1 else 0) + Own(es[1..], i, p)
  }

  /** What is left to do for a consumer whose ctx is done: an entry of its queue may be dropped or still be started. */
  function HandlingsWeight(hs: seq<Handling>): nat {
    if hs == [] then 0 else
      (match hs[0].phase case Running => 2 case Acking => 1 case Nacking => 1 case Done => 0) + HandlingsWeight(hs[1..])
  }

  function LoopWeight(cfg: Config, pc: Pc): nat {
    match pc
    case Stopped => 0
    case Testing => 1
    case Reading => 3 * cfg.slots + 3
    case Claiming => 3 * cfg.slots + 3 * cfg.batch + 5
  }

  function ShutdownWeight(cfg: Config, c: Consumer): nat {
    if !c.alive then 0 else
      1 + LoopWeight(cfg, c.pc) + (if c.arrived then 0 else 1) + 3 * |c.queue| + HandlingsWeight(c.hs)
  }

  lemma {:induction false} WeightOfUpdate(hs: seq<Handling>, k: nat, h: Handling)
    requires k < |hs|
    ensures HandlingsWeight(hs[k := h]) + HandlingsWeight([hs[k]]) == HandlingsWeight(hs) + HandlingsWeight([h])
  {
    assert [hs[k]][1..] == [] && [h][1..] == [];
    if k == 0 {
      assert hs[k := h] == [h] + hs[1..];
    } else {
      assert hs[k := h] == [hs[0]] + hs[1..][k - 1 := h];
      WeightOfUpdate(hs[1..], k - 1, h);
    }
  }

  lemma {:induction false} WeightOfAppend(hs: seq<Handling>, h: Handling)
    ensures HandlingsWeight(hs + [h]) == HandlingsWeight(hs) + HandlingsWeight([h])
  {
    if hs == [] {
      assert hs + [h] == [h];
    } else {
      assert (hs + [h])[1..] == hs[1..] + [h];
      WeightOfAppend(hs[1..], h);
    }
  }

  /** What the handlers of a consumer do. */
  predicate OfHandlers(a: Action) {
    a.Start? || a.Return? || a.Ack? || a.Nack?
  }

  lemma HandlingStep(cfg: Config, s: State, c: Consumer, a: Action)
    requires c.alive && OfHandlers(a) && Ready(cfg, s, c, a)
    ensures ShutdownWeight(cfg, NextConsumer(cfg, s, c, a)) < ShutdownWeight(cfg, c)
  {
    match a
    case Start => WeightOfAppend(c.hs, Handling(c.queue[0], c.sent, s.now, Running));
    case Return(k, ok) => WeightOfUpdate(c.hs, k, c.hs[k].(phase := if ok then Acking else Nacking));
    case Ack(k, _) => WeightOfUpdate(c.hs, k, c.hs[k].(phase := Done));
    case Nack(k) => WeightOfUpdate(c.hs, k, c.hs[k].(phase := Done));
  }

  lemma LoopStep(cfg: Config, s: State, c: Consumer, a: Action)
    requires c.alive && c.ctxDone && !OfHandlers(a) && Ready(cfg, s, c, a)
    ensures ShutdownWeight(cfg, NextConsumer(cfg, s, c, a)) < ShutdownWeight(cfg, c)
  {
    if a.Claim? {
      ReplyIsClaimable(cfg, s, c);
    }
  }

  /** What a consumer does while it shuts down brings it closer to its end. */
  lemma ShutdownStep(cfg: Config, s: State, i: nat, a: Action)
    requires i < |s.consumers| && s.consumers[i].ctxDone && Enabled(cfg, s, On(i, a))
    ensures var d := Apply(cfg, s, On(i, a)).consumers[i];
      d.ctxDone && ShutdownWeight(cfg, d) < ShutdownWeight(cfg, s.consumers[i])
  {
    if OfHandlers(a) {
      HandlingStep(cfg, s, s.consumers[i], a);
    } else {
      LoopStep(cfg, s, s.consumers[i], a);
    }
  }

  lemma {:induction false} ShutdownIsBounded(cfg: Config, s: State, es: seq<Event>, i: nat)
    requires Legal(cfg, s, es) && i < |s.consumers| && s.consumers[i].ctxDone
    ensures Own(es, i, a => true) <= ShutdownWeight(cfg, s.consumers[i])
    decreases es
  {
    if es != [] {
      if es[0].On? && es[0].c == i {
        ShutdownStep(cfg, s, i, es[0].a);
      }
      ShutdownIsBounded(cfg, Apply(cfg, s, es[0]), es[1..], i);
    }
  }

  /**
   * Shutdown ends: from the moment its ctx is done a consumer takes a bounded number of steps in any run, and until
   * Receive is through there is one that it can take.
   */
  lemma ShutdownEnds(cfg: Config, s: State, es: seq<Event>, i: nat)
    requires i < |s.consumers| && Enabled(cfg, s, On(i, Cancel)) && Legal(cfg, Apply(cfg, s, On(i, Cancel)), es)
    requires cfg.slots > 0
    ensures Own(es, i, a => true) <= ShutdownWeight(cfg, s.consumers[i])
    ensures var t := Exec(cfg, Apply(cfg, s, On(i, Cancel)), es);
      i < |t.consumers| && (!t.consumers[i].alive || Through(t.consumers[i]) ||
                            exists a :: Enabled(cfg, t, On(i, a)) && !Befalls(a))
  {
    var u := Apply(cfg, s, On(i, Cancel));
    ShutdownIsBounded(cfg, u, es, i);
    ConsumersStay(cfg, u, es);
    var t := Exec(cfg, u, es);
    if t.consumers[i].alive && !Through(t.consumers[i]) {
      ConsumerGoesOn(cfg, t, i);
    }
  }

  lemma {:induction false} ConsumersStay(cfg: Config, s: State, es: seq<Event>)
    requires Legal(cfg, s, es)
    ensures |s.consumers| <= |Exec(cfg, s, es).consumers|
    decreases es
  {
    if es != [] {
      ConsumersStay(cfg, Apply(cfg, s, es[0]), es[1..]);
    }
  }

  /**
   * After its ctx is done a consumer makes no further claim or read but those of the iteration it is in, and starts no
   * handler but for a message for which Dispatch had already seen ctx not done.
   */
  lemma {:induction false} ShutdownStartsNothing(cfg: Config, s: State, es: seq<Event>, i: nat)
    requires Legal(cfg, s, es) && i < |s.consumers| && s.consumers[i].ctxDone
    ensures var c := s.consumers[i];
      && Own(es, i, (a: Action) => a.Claim?) <= (if c.pc.Claiming? then 1 else 0)
      && Own(es, i, (a: Action) => a.Read?) <= (if c.pc.Claiming? || c.pc.Reading? then 1 else 0)
      && Own(es, i, (a: Action) => a.Start?) <= (if c.admitted then 1 else 0)
    decreases es
  {
    if es != [] {
      ShutdownStartsNothing(cfg, Apply(cfg, s, es[0]), es[1..], i);
    }
  }

  /** Once Dispatch has refused a message because ctx is done, no handler is started any more. */
  lemma NothingStartsAfterDrop(cfg: Config, s: State, es: seq<Event>, i: nat)
    requires i < |s.consumers| && Enabled(cfg, s, On(i, Drop)) && Legal(cfg, Apply(cfg, s, On(i, Drop)), es)
    ensures Own(es, i, (a: Action) => a.Start?) == 0
  {
    ShutdownStartsNothing(cfg, Apply(cfg, s, On(i, Drop)), es, i);
  }

  /** A consumer whose loop has ended makes no claim and no read any more. */
  lemma {:induction false} StoppedIsFinal(cfg: Config, s: State, es: seq<Event>, i: nat)
    requires Legal(cfg, s, es) && i < |s.consumers| && s.consumers[i].pc.Stopped?
    ensures Own(es, i, (a: Action) => a.Claim? || a.Read? || a.Loop?) == 0
    decreases es
  {
    if es != [] {
      StoppedIsFinal(cfg, Apply(cfg, s, es[0]), es[1..], i);
    }
  }

  /** A read gets what is new, as far as the limit allows, and times out exactly when nothing is. */
  lemma ReadMissesNothing(cfg: Config, s: State, i: nat)
    requires Conserved(s.broker) && cfg.slots > 0 && i < |s.consumers| && s.consumers[i].alive
    requires s.consumers[i].pc.Reading? && Free(s.consumers[i])
    ensures Enabled(cfg, s, On(i, TimeOut)) <==> s.broker.delivered == s.broker.appended
    ensures forall n, replied :: Enabled(cfg, s, On(i, Read(n, replied))) ==> n > 0
    ensures s.broker.delivered < s.broker.appended ==>
      exists n: nat :: Enabled(cfg, s, On(i, Read(n, true))) && n <= cfg.slots &&
        var b := Apply(cfg, s, On(i, Read(n, true))).broker;
        b.delivered == s.broker.delivered + n && (n == cfg.slots || b.delivered == b.appended)
  {
    if s.broker.delivered < s.broker.appended {
      var n: nat := Unread(cfg, s.broker);
      assert Enabled(cfg, s, On(i, Read(n, true)));
    }
  }

  /** ctx may become done at any time, and any claim or read may fail, which ends the loop. */
  lemma MayFailOrBeCancelled(cfg: Config, s: State, i: nat)
    requires i < |s.consumers| && s.consumers[i].alive
    ensures var c := s.consumers[i];
      && (!c.ctxDone ==> Enabled(cfg, s, On(i, Cancel)) && Apply(cfg, s, On(i, Cancel)).consumers[i].ctxDone)
      && ((c.pc.Claiming? || c.pc.Reading?) && Free(c) ==>
            Enabled(cfg, s, On(i, Fail)) && Apply(cfg, s, On(i, Fail)).consumers[i].pc.Stopped?)
  {
  }

  /** A consumer may crash at any time, and leaves all entries pending or acked as they are. */
  lemma CrashLosesNothing(cfg: Config, s: State, i: nat)
    requires i < |s.consumers| && s.consumers[i].alive
    ensures Enabled(cfg, s, On(i, Crash))
    ensures var t := Apply(cfg, s, On(i, Crash));
      t.broker == s.broker && !t.consumers[i].alive && t.consumers[i].hs == [] && t.consumers[i].queue == []
  {
  }
}
