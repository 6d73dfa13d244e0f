/**
 * The timing of the consumer group protocol: how long a message waits for a slot, and when two handlers can hold the
 * same entry at the same time.
 */
module RedisTiming {
  import opened RedisGroup

  /**
   * A step takes time only as the code allows: a handling with its ack lasts at most cfg.handling, a batch is at most
   * cfg.latency on its way, and Dispatch does not wait while a slot is free.
   */
  predicate Timely(cfg: Config, s: State, e: Event) {
    e.Tick? ==> forall i | 0 <= i < |s.consumers| :: MayWait(cfg, s.consumers[i], s.now + e.d)
  }

  predicate MayWait(cfg: Config, c: Consumer, until: int) {
    && (forall k | 0 <= k < |c.hs| && c.hs[k].phase != Done :: until <= c.hs[k].start + cfg.handling)
    && (!c.arrived ==> until <= c.sent + cfg.latency)
    && (c.arrived && c.queue != [] ==> NumActive(c.hs) >= cfg.slots)
  }

  /** A consumer that crashed holds up nothing. */
  lemma CrashedHoldsUpNothing(cfg: Config, s: State, c: Consumer, until: int)
    ensures MayWait(cfg, NextConsumer(cfg, s, c, Crash), until)
  {
  }

  predicate TimelyRun(cfg: Config, s: State, es: seq<Event>)
    requires Legal(cfg, s, es)
    decreases es
  {
    es == [] || (Timely(cfg, s, es[0]) && TimelyRun(cfg, Apply(cfg, s, es[0]), es[1..]))
  }

  // ----- the slot wait

  /** ceil(j / slots) * handling: the bound on the wait of message j of a batch, counted from 1. */
  function SlotWait(cfg: Config, j: int): int
    requires cfg.slots > 0
  {
    (j + cfg.slots - 1) / cfg.slots * cfg.handling
  }

  lemma DivUnique(a: int, d: int, q: int, r: int)
    requires d > 0 && a == q * d + r && 0 <= r < d
    ensures a / d == q
  {
    var p := a / d;
    assert a == p * d + a % d;
    assert (p + 1) * d == p * d + d && (q + 1) * d == q * d + d;
    if q > p {
      MulMonotone(p + 1, q, d);
    } else if q < p {
      MulMonotone(q + 1, p, d);
    }
  }

  lemma SlotWaitSteps(cfg: Config, j: int)
    requires cfg.slots > 0
    ensures SlotWait(cfg, j + cfg.slots) == SlotWait(cfg, j) + cfg.handling
    ensures 1 <= j <= cfg.slots ==> SlotWait(cfg, j) == cfg.handling
  {
    var a, d := j + cfg.slots - 1, cfg.slots as int;
    var q := a / d;
    assert a == q * d + a % d;
    assert (q + 1) * d == q * d + d;
    DivUnique(a + d, d, q + 1, a % d);
    assert (q + 1) * cfg.handling == q * cfg.handling + cfg.handling;
    if 1 <= j <= cfg.slots {
      DivUnique(a, d, 1, j - 1);
    }
  }

  lemma SlotWaitMonotone(cfg: Config, i: int, j: int)
    requires cfg.slots > 0 && cfg.handling >= 0 && 0 <= i <= j
    ensures 0 <= SlotWait(cfg, i) <= SlotWait(cfg, j)
  {
    DivMonotone(i + cfg.slots - 1, j + cfg.slots - 1, cfg.slots);
    MulMonotone((i + cfg.slots - 1) / cfg.slots, (j + cfg.slots - 1) / cfg.slots, cfg.handling);
  }

  lemma DivMonotone(a: int, b: int, d: int)
    requires 0 <= a <= b && d > 0
    ensures 0 <= a / d <= b / d
  {
    var p, q := a / d, b / d;
    assert p * d <= a && b < q * d + d && (q + 1) * d == q * d + d;
    if p > q {
      MulMonotone(q + 1, p, d);
    }
  }

  lemma MulMonotone(a: int, b: int, m: int)
    requires a <= b && m >= 0
    ensures a * m <= b * m && m * a <= m * b
    ensures 0 <= a ==> 0 <= a * m
  {
  }

  predicate Sorted(hs: seq<Handling>) {
    forall i, j | 0 <= i < j < |hs| :: hs[i].start <= hs[j].start
  }

  // ----- when a batch is started

  /** The bound on the start of message j of a batch: slots are free after first, and then every cfg.handling. */
  function Wait(cfg: Config, first: int, j: int): int
    requires cfg.slots > 0
  {
    first - cfg.handling + SlotWait(cfg, j)
  }

  /**
   * From its delivery on, a batch may wait for its own arrival or for the end of the handlings that were under way when
   * it was delivered, whichever takes longer, before its first messages get a slot.
   */
  function FirstWait(cfg: Config): int {
    if cfg.latency > cfg.handling then cfg.latency else cfg.handling
  }

  lemma WaitMonotone(cfg: Config, first: int, i: int, j: int)
    requires cfg.slots > 0 && cfg.handling >= 0 && 0 <= i <= j
    ensures Wait(cfg, first, i) <= Wait(cfg, first, j)
    ensures i >= 1 ==> first <= Wait(cfg, first, j)
  {
    SlotWaitMonotone(cfg, i, j);
    if i >= 1 {
      SlotWaitSteps(cfg, 1);
      SlotWaitMonotone(cfg, 1, j);
    }
  }

  /** All that was started before the batch was started by the given time, and the batch itself in turn after it. */
  ghost predicate InTurn(cfg: Config, c: Consumer, now: int, from: int, first: int)
    requires cfg.slots > 0
  {
    && (forall k | 0 <= k < |c.hs| && k < c.base :: c.hs[k].start <= from)
    && (forall k | c.base <= k < |c.hs| :: c.hs[k].start <= from + Wait(cfg, first, k - c.base + 1))
    && (c.arrived && c.queue != [] ==> now <= from + Wait(cfg, first, |c.hs| - c.base + 1))
  }

  /** The handlings under way, in the order in which they started, and the batch on its way. */
  ghost predicate InOrder(cfg: Config, c: Consumer, now: int) {
    && c.base <= |c.hs| && NumActive(c.hs) <= cfg.slots
    && Sorted(c.hs) && (forall k | 0 <= k < |c.hs| :: c.hs[k].start <= now)
    && (forall k | 0 <= k < |c.hs| && c.hs[k].phase != Done :: now <= c.hs[k].start + cfg.handling)
    && (forall k | c.base <= k < |c.hs| :: c.hs[k].delivered == c.sent)
    && c.sent <= c.arrival <= now && (!c.arrived ==> now <= c.sent + cfg.latency && c.base == |c.hs|)
  }

  /** What holds of every consumer at every time. */
  ghost predicate OnTime(cfg: Config, c: Consumer, now: int)
    requires cfg.slots > 0
  {
    InOrder(cfg, c, now) && InTurn(cfg, c, now, c.arrival, cfg.handling) && InTurn(cfg, c, now, c.sent, FirstWait(cfg))
  }

  lemma {:induction false} ActiveEarly(hs: seq<Handling>, slots: nat)
    requires 0 < slots <= NumActive(hs)
    ensures exists k :: 0 <= k <= |hs| - slots && hs[k].phase != Done
  {
    if hs[0].phase != Done {
      ActiveAtMost(hs);
    } else {
      ActiveEarly(hs[1..], slots);
      var k :| 0 <= k <= |hs[1..]| - slots && hs[1..][k].phase != Done;
      assert hs[k + 1].phase != Done;
    }
  }

  lemma {:induction false} ActiveAtMost(hs: seq<Handling>)
    ensures NumActive(hs) <= |hs|
  {
    if hs != [] {
      ActiveAtMost(hs[1..]);
    }
  }

  /** Time passes: the message at the head of the queue still waits, so all slots are taken. */
  lemma TickKeepsInTurn(cfg: Config, c: Consumer, now: int, d: nat, from: int, first: int)
    requires cfg.slots > 0 && 0 <= cfg.handling <= first
    requires InOrder(cfg, c, now) && InTurn(cfg, c, now, from, first) && MayWait(cfg, c, now + d)
    ensures InTurn(cfg, c, now + d, from, first)
  {
    if c.arrived && c.queue != [] {
      var last, j := |c.hs| - cfg.slots, |c.hs| - c.base + 1;
      LastEndsFirst(cfg, c, now + d);
      WaitMonotone(cfg, first, 1, j);
      if last >= c.base {
        SlotWaitSteps(cfg, last - c.base + 1);
      }
    }
  }

  /** While all slots are taken, the handling that is as many back as there are slots is not over yet. */
  lemma LastEndsFirst(cfg: Config, c: Consumer, until: int)
    requires 0 < cfg.slots <= NumActive(c.hs) && Sorted(c.hs) && MayWait(cfg, c, until)
    ensures 0 <= |c.hs| - cfg.slots && until <= c.hs[|c.hs| - cfg.slots].start + cfg.handling
  {
    ActiveEarly(c.hs, cfg.slots);
    var k :| 0 <= k <= |c.hs| - cfg.slots && c.hs[k].phase != Done;
    assert k == |c.hs| - cfg.slots || c.hs[k].start <= c.hs[|c.hs| - cfg.slots].start;
  }

  lemma TickKeepsOnTime(cfg: Config, c: Consumer, now: int, d: nat)
    requires cfg.slots > 0 && cfg.handling >= 0 && OnTime(cfg, c, now) && MayWait(cfg, c, now + d)
    ensures OnTime(cfg, c, now + d)
  {
    TickKeepsInTurn(cfg, c, now, d, c.arrival, cfg.handling);
    TickKeepsInTurn(cfg, c, now, d, c.sent, FirstWait(cfg));
  }

  lemma {:induction false} ActiveUpdate(hs: seq<Handling>, k: nat, h: Handling)
    requires k < |hs|
    ensures NumActive(hs[k := h]) ==
            NumActive(hs) - (if hs[k].phase != Done then 1 else 0) + (if h.phase != Done then 1 else 0)
  {
    if k == 0 {
      assert hs[k := h] == [h] + hs[1..];
    } else {
      assert hs[k := h] == [hs[0]] + hs[1..][k - 1 := h];
      ActiveUpdate(hs[1..], k - 1, h);
    }
  }

  lemma {:induction false} ActiveAppend(hs: seq<Handling>, h: Handling)
    ensures NumActive(hs + [h]) == NumActive(hs) + if h.phase != Done then 1 else 0
  {
    if hs == [] {
      assert hs + [h] == [h];
    } else {
      assert (hs + [h])[1..] == hs[1..] + [h];
      ActiveAppend(hs[1..], h);
    }
  }

  lemma SettingPhaseKeepsInTurn(cfg: Config, c: Consumer, now: int, k: nat, p: Phase, from: int, first: int)
    requires cfg.slots > 0 && InTurn(cfg, c, now, from, first) && k < |c.hs|
    ensures InTurn(cfg, SetPhase(c, k, p), now, from, first)
  {
    var d := SetPhase(c, k, p);
    assert forall i | 0 <= i < |c.hs| :: d.hs[i].start == c.hs[i].start;
  }

  lemma SettingPhaseKeepsInOrder(cfg: Config, c: Consumer, now: int, k: nat, p: Phase)
    requires InOrder(cfg, c, now) && k < |c.hs| && c.hs[k].phase != Done
    ensures InOrder(cfg, SetPhase(c, k, p), now)
  {
    ActiveUpdate(c.hs, k, c.hs[k].(phase := p));
    var d := SetPhase(c, k, p);
    assert forall i | 0 <= i < |c.hs| :: d.hs[i].start == c.hs[i].start && d.hs[i].delivered == c.hs[i].delivered;
  }

  lemma SettingPhaseKeepsOnTime(cfg: Config, c: Consumer, now: int, k: nat, p: Phase)
    requires cfg.slots > 0 && OnTime(cfg, c, now) && k < |c.hs| && c.hs[k].phase != Done
    ensures OnTime(cfg, SetPhase(c, k, p), now)
  {
    SettingPhaseKeepsInOrder(cfg, c, now, k, p);
    SettingPhaseKeepsInTurn(cfg, c, now, k, p, c.arrival, cfg.handling);
    SettingPhaseKeepsInTurn(cfg, c, now, k, p, c.sent, FirstWait(cfg));
  }

  /** What OnTime says depends on the handlings, on the batch, and on whether a message waits. */
  lemma SameHandlingsOnTime(cfg: Config, c: Consumer, d: Consumer, now: int)
    requires cfg.slots > 0 && OnTime(cfg, c, now)
    requires d.hs == c.hs && d.base == c.base && d.sent == c.sent && d.arrived == c.arrived && d.arrival == c.arrival
    requires d.queue != [] ==> c.queue != []
    ensures OnTime(cfg, d, now)
  {
  }

  /** The broker answers with a batch, or its reply is lost. */
  lemma BatchOnTime(cfg: Config, c: Consumer, now: int, ids: seq<Id>, replied: bool, next: Pc)
    requires cfg.slots > 0 && cfg.handling >= 0 && OnTime(cfg, c, now) && Free(c)
    ensures OnTime(cfg, Batch(c, ids, now, replied, next), now)
  {
  }

  lemma ArriveOnTime(cfg: Config, c: Consumer, now: int)
    requires cfg.slots > 0 && cfg.handling >= 0 && OnTime(cfg, c, now) && !c.arrived
    ensures OnTime(cfg, c.(arrived := true, arrival := now), now)
  {
    WaitMonotone(cfg, cfg.handling, 1, 1);
    WaitMonotone(cfg, FirstWait(cfg), 1, 1);
  }

  /** A consumer that starts the head of its queue. */
  function Started(c: Consumer, now: int): Consumer
    requires c.queue != []
  {
    c.(hs := c.hs + [Handling(c.queue[0], c.sent, now, Running)], queue := c.queue[1..], admitted := false)
  }

  lemma StartInTurn(cfg: Config, c: Consumer, now: int, from: int, first: int)
    requires cfg.slots > 0 && cfg.handling >= 0 && InTurn(cfg, c, now, from, first)
    requires c.arrived && c.queue != [] && c.base <= |c.hs|
    ensures InTurn(cfg, Started(c, now), now, from, first)
  {
    WaitMonotone(cfg, first, |c.hs| - c.base + 1, |c.hs| - c.base + 2);
  }

  lemma StartInOrder(cfg: Config, c: Consumer, now: int)
    requires InOrder(cfg, c, now) && c.arrived && c.queue != [] && NumActive(c.hs) < cfg.slots && cfg.handling >= 0
    ensures InOrder(cfg, Started(c, now), now)
  {
    ActiveAppend(c.hs, Handling(c.queue[0], c.sent, now, Running));
  }

  /** One more handling starts, at the end of the wait. */
  lemma StartOnTime(cfg: Config, c: Consumer, now: int)
    requires cfg.slots > 0 && cfg.handling >= 0 && OnTime(cfg, c, now)
    requires c.arrived && c.queue != [] && NumActive(c.hs) < cfg.slots
    ensures OnTime(cfg, Started(c, now), now)
  {
    StartInOrder(cfg, c, now);
    StartInTurn(cfg, c, now, c.arrival, cfg.handling);
    StartInTurn(cfg, c, now, c.sent, FirstWait(cfg));
  }

  /** The claims and reads of the loop, and the start of a handling. */
  predicate Delivers(a: Action) {
    a.Claim? || a.Read? || a.Arrive? || a.Start?
  }

  lemma DeliveryKeepsOnTime(cfg: Config, s: State, c: Consumer, a: Action)
    requires cfg.slots > 0 && cfg.handling >= 0 && OnTime(cfg, c, s.now) && Ready(cfg, s, c, a) && Delivers(a)
    ensures OnTime(cfg, NextConsumer(cfg, s, c, a), s.now)
  {
    var d := NextConsumer(cfg, s, c, a);
    match a
    case Claim(ids, replied) =>
      BatchOnTime(cfg, c, s.now, ids, replied, Reading);
      SameHandlingsOnTime(cfg, Batch(c, ids, s.now, replied, Reading), d, s.now);
    case Read(n, replied) => BatchOnTime(cfg, c, s.now, NewIds(s.broker.delivered, n), replied, Testing);
    case Arrive => ArriveOnTime(cfg, c, s.now);
    case Start => StartOnTime(cfg, c, s.now);
  }

  lemma ActionKeepsOnTime(cfg: Config, s: State, c: Consumer, a: Action)
    requires cfg.slots > 0 && cfg.handling >= 0 && OnTime(cfg, c, s.now) && Ready(cfg, s, c, a)
    ensures OnTime(cfg, NextConsumer(cfg, s, c, a), s.now)
  {
    match a
    case Claim(_, _) => DeliveryKeepsOnTime(cfg, s, c, a);
    case Read(_, _) => DeliveryKeepsOnTime(cfg, s, c, a);
    case Arrive => DeliveryKeepsOnTime(cfg, s, c, a);
    case Start => DeliveryKeepsOnTime(cfg, s, c, a);
    case Return(k, ok) => SettingPhaseKeepsOnTime(cfg, c, s.now, k, if ok then Acking else Nacking);
    case Ack(k, _) => SettingPhaseKeepsOnTime(cfg, c, s.now, k, Done);
    case Nack(k) => SettingPhaseKeepsOnTime(cfg, c, s.now, k, Done);
    case Crash =>
    case _ => SameHandlingsOnTime(cfg, c, NextConsumer(cfg, s, c, a), s.now);
  }

  ghost predicate AllOnTime(cfg: Config, s: State)
    requires cfg.slots > 0
  {
    0 <= s.now && forall i | 0 <= i < |s.consumers| :: OnTime(cfg, s.consumers[i], s.now)
  }

  lemma StepKeepsOnTime(cfg: Config, s: State, e: Event)
    requires cfg.slots > 0 && cfg.handling >= 0 && AllOnTime(cfg, s) && Enabled(cfg, s, e) && Timely(cfg, s, e)
    ensures AllOnTime(cfg, Apply(cfg, s, e))
  {
    match e
    case Tick(d) =>
      forall i | 0 <= i < |s.consumers| ensures OnTime(cfg, s.consumers[i], s.now + d) {
        TickKeepsOnTime(cfg, s.consumers[i], s.now, d);
      }
    case On(i, a) => ActionKeepsOnTime(cfg, s, s.consumers[i], a);
    case _ =>
  }

  lemma {:induction false} RunKeepsOnTime(cfg: Config, s: State, es: seq<Event>)
    requires cfg.slots > 0 && cfg.handling >= 0 && AllOnTime(cfg, s) && Legal(cfg, s, es) && TimelyRun(cfg, s, es)
    ensures AllOnTime(cfg, Exec(cfg, s, es))
    decreases es
  {
    if es != [] {
      StepKeepsOnTime(cfg, s, es[0]);
      RunKeepsOnTime(cfg, Apply(cfg, s, es[0]), es[1..]);
    }
  }

  /**
   * The slot wait: if a handling with its ack lasts at most cfg.handling, then in every run the message of a batch
   * that is the j-th to get a slot gets it within ceil(j / slots) * handling of the arrival of the batch, whatever
   * the earlier handlings that still hold slots, and at most slots messages are handled at once. Counted from the
   * delivery of the batch by the broker, the first round of waiting is that for the reply if it takes longer.
   */
  lemma SlotWaitBound(cfg: Config, start: nat, es: seq<Event>, i: nat, j: nat)
    requires cfg.slots > 0 && cfg.handling >= 0
    requires Legal(cfg, Init(start), es) && TimelyRun(cfg, Init(start), es)
    requires i < |Exec(cfg, Init(start), es).consumers| && j > 0
    ensures var s := Exec(cfg, Init(start), es); var c := s.consumers[i];
      && NumActive(c.hs) <= cfg.slots
      && (c.base + j <= |c.hs| ==>
            && c.hs[c.base + j - 1].start <= c.arrival + SlotWait(cfg, j)
            && c.hs[c.base + j - 1].start <= c.sent + Wait(cfg, FirstWait(cfg), j))
      && (c.base + j > |c.hs| && c.arrived && c.queue != [] ==>
            s.now <= c.arrival + SlotWait(cfg, j) && s.now <= c.sent + Wait(cfg, FirstWait(cfg), j))
  {
    RunKeepsOnTime(cfg, Init(start), es);
    var c := Exec(cfg, Init(start), es).consumers[i];
    assert OnTime(cfg, c, Exec(cfg, Init(start), es).now);
    if c.base + j > |c.hs| {
      SlotWaitMonotone(cfg, |c.hs| - c.base + 1, j);
    }
  }
}
