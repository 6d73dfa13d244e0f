/**
 * When two handlers of the group can handle the same entry at the same time. Waiting for a slot counts as idle time,
 * so the constructor's check that the processing timeout is below the idle timeout is not enough.
 */
module RedisOverlap {
  import opened RedisGroup
  import opened RedisTiming

  /** The most messages a consumer gets at once: of a claim, or of a read. */
  function LargestBatch(cfg: Config): nat {
    if cfg.batch > cfg.slots then cfg.batch else cfg.slots
  }

  /** The longest time from the delivery of an entry to the end of its handling. */
  function LongestTurn(cfg: Config): int
    requires cfg.slots > 0
  {
    Wait(cfg, FirstWait(cfg), LargestBatch(cfg)) + cfg.handling
  }

  predicate Active(c: Consumer, k: int) {
    0 <= k < |c.hs| && c.hs[k].phase != Done
  }

  /** The consumer handles an entry, or is about to dispatch it. */
  ghost predicate WorksOn(c: Consumer, id: Id) {
    id in c.queue || exists k :: Active(c, k) && c.hs[k].id == id
  }

  /** No two handlings that are under way, of any two consumers or of one, are of the same entry. */
  ghost predicate NoOverlap(s: State) {
    forall i, j, k, l | 0 <= i < |s.consumers| && 0 <= j < |s.consumers| &&
                        Active(s.consumers[i], k) && Active(s.consumers[j], l) && (i, k) != (j, l) ::
      s.consumers[i].hs[k].id != s.consumers[j].hs[l].id
  }

  /** The pending list says that entry id was last delivered to consumer i, at time d. */
  predicate Holds(b: Broker, i: nat, id: Id, d: int) {
    id in b.pending && b.pending[id] == Pending(i, d)
  }

  /** Consumer i works on an entry only while it is the last one it was delivered to, and on each only once. */
  ghost predicate Owner(b: Broker, i: nat, c: Consumer) {
    && (forall k | Active(c, k) :: Holds(b, i, c.hs[k].id, c.hs[k].delivered))
    && (forall q | 0 <= q < |c.queue| :: Holds(b, i, c.queue[q], c.sent))
    && (forall k, l | Active(c, k) && Active(c, l) && k != l :: c.hs[k].id != c.hs[l].id)
    && (forall k, q | Active(c, k) && 0 <= q < |c.queue| :: c.hs[k].id != c.queue[q])
    && Distinct(c.queue)
  }

  ghost predicate Quick(cfg: Config, c: Consumer)
    requires cfg.slots > 0
  {
    && |c.hs| - c.base + |c.queue| <= LargestBatch(cfg)
    && (forall k | 0 <= k < |c.hs| :: c.hs[k].start <= c.hs[k].delivered + Wait(cfg, FirstWait(cfg), LargestBatch(cfg)))
  }

  ghost predicate Inv(cfg: Config, s: State)
    requires cfg.slots > 0
  {
    && GroupInv(s) && AllOnTime(cfg, s)
    && forall i | 0 <= i < |s.consumers| :: Owner(s.broker, i, s.consumers[i]) && Quick(cfg, s.consumers[i])
  }

  lemma ActionKeepsQuick(cfg: Config, s: State, c: Consumer, a: Action)
    requires cfg.slots > 0 && cfg.handling >= 0 && OnTime(cfg, c, s.now) && Quick(cfg, c) && Ready(cfg, s, c, a)
    ensures Quick(cfg, NextConsumer(cfg, s, c, a))
  {
    match a
    case Start => StartKeepsQuick(cfg, c, s.now);
    case Claim(_, _) => ReplyIsClaimable(cfg, s, c);
    case _ =>
  }

  lemma StartKeepsQuick(cfg: Config, c: Consumer, now: int)
    requires cfg.slots > 0 && cfg.handling >= 0 && OnTime(cfg, c, now) && Quick(cfg, c) && c.arrived && c.queue != []
    ensures Quick(cfg, Started(c, now))
  {
    WaitMonotone(cfg, FirstWait(cfg), |c.hs| - c.base + 1, LargestBatch(cfg));
  }

  /** What a consumer works on was delivered too recently to be claimed. */
  lemma OwnedIsNotIdle(cfg: Config, s: State, i: nat, id: Id)
    requires cfg.slots > 0 && cfg.handling >= 0 && LongestTurn(cfg) < cfg.idle
    requires Inv(cfg, s) && i < |s.consumers|
    requires WorksOn(s.consumers[i], id)
    ensures id in s.broker.pending && s.now - s.broker.pending[id].since < cfg.idle
  {
    var c := s.consumers[i];
    assert Owner(s.broker, i, c) && Quick(cfg, c) && OnTime(cfg, c, s.now);
    if q :| 0 <= q < |c.queue| && c.queue[q] == id {
      WaitMonotone(cfg, FirstWait(cfg), |c.hs| - c.base + 1, LargestBatch(cfg));
      assert Holds(s.broker, i, c.queue[q], c.sent);
    } else {
      var k :| Active(c, k) && c.hs[k].id == id;
      assert Holds(s.broker, i, c.hs[k].id, c.hs[k].delivered);
    }
  }

  /** What the pending list says of an entry does not change for consumer i. */
  predicate SameFor(b: Broker, b': Broker, id: Id) {
    id in b.pending ==> id in b'.pending && b'.pending[id] == b.pending[id]
  }

  /** An action of consumer j leaves the pending list as it is for the entries of any other consumer. */
  lemma OthersKeepTheirEntries(cfg: Config, s: State, i: nat, j: nat, a: Action, id: Id)
    requires cfg.slots > 0 && cfg.handling >= 0 && LongestTurn(cfg) < cfg.idle
    requires Inv(cfg, s) && i < |s.consumers| && Enabled(cfg, s, On(j, a))
    requires WorksOn(s.consumers[i], id)
    requires i != j || a.Claim? || a.Read?
    ensures SameFor(s.broker, NextBroker(cfg, s, j, s.consumers[j], a), id)
  {
    OwnedIsNotIdle(cfg, s, i, id);
    var c := s.consumers[j];
    assert Owner(s.broker, i, s.consumers[i]) && Owner(s.broker, j, c);
    match a
    case Claim(ids, _) =>
      ReplyIsClaimable(cfg, s, c);
      assert id !in ids;
    case Read(n, _) => NewIdsAre(s.broker.delivered, n);
    case Ack(k, _) => assert Active(c, k);
    case _ =>
  }

  lemma OtherKeepsOwner(cfg: Config, s: State, i: nat, j: nat, a: Action)
    requires cfg.slots > 0 && cfg.handling >= 0 && LongestTurn(cfg) < cfg.idle
    requires Inv(cfg, s) && i < |s.consumers| && i != j && Enabled(cfg, s, On(j, a))
    ensures Owner(NextBroker(cfg, s, j, s.consumers[j], a), i, s.consumers[i])
  {
    var c, b := s.consumers[i], NextBroker(cfg, s, j, s.consumers[j], a);
    assert Owner(s.broker, i, c);
    forall k | Active(c, k) ensures Holds(b, i, c.hs[k].id, c.hs[k].delivered) {
      OthersKeepTheirEntries(cfg, s, i, j, a, c.hs[k].id);
    }
    forall q | 0 <= q < |c.queue| ensures Holds(b, i, c.queue[q], c.sent) {
      OthersKeepTheirEntries(cfg, s, i, j, a, c.queue[q]);
    }
  }

  /** A batch arrives, or its reply is lost: none of its entries is one the consumer still works on. */
  lemma BatchOwner(b: Broker, i: nat, c: Consumer, ids: seq<Id>, now: int, replied: bool, next: Pc)
    requires Owner(b, i, c) && c.queue == [] && Distinct(ids)
    requires forall k | Active(c, k) :: c.hs[k].id !in ids
    ensures Owner(Deliver(b, ids, i, now), i, Batch(c, ids, now, replied, next))
  {
    var b', d := Deliver(b, ids, i, now), Batch(c, ids, now, replied, next);
    forall k | Active(d, k) ensures Holds(b', i, d.hs[k].id, d.hs[k].delivered) {
      assert Active(c, k);
    }
  }

  /** What Owner says does not depend on the cursor. */
  lemma SameOwner(b: Broker, b': Broker, i: nat, c: Consumer, d: Consumer)
    requires Owner(b, i, c) && b'.pending == b.pending
    requires d.hs == c.hs && d.sent == c.sent && d.queue == c.queue
    ensures Owner(b', i, d)
  {
    assert forall k | Active(d, k) :: Active(c, k) && Holds(b, i, c.hs[k].id, c.hs[k].delivered);
    assert forall q | 0 <= q < |d.queue| :: Holds(b, i, c.queue[q], c.sent);
  }

  lemma BatchKeepsOwner(cfg: Config, s: State, i: nat, a: Action)
    requires cfg.slots > 0 && cfg.handling >= 0 && LongestTurn(cfg) < cfg.idle
    requires Inv(cfg, s) && Enabled(cfg, s, On(i, a)) && (a.Claim? || a.Read?)
    ensures Owner(NextBroker(cfg, s, i, s.consumers[i], a), i, NextConsumer(cfg, s, s.consumers[i], a))
  {
    var c := s.consumers[i];
    var ids := if a.Claim? then a.ids else NewIds(s.broker.delivered, a.n);
    var next := if a.Claim? then Reading else Testing;
    if a.Claim? {
      ReplyIsClaimable(cfg, s, c);
    } else {
      NewIdsAre(s.broker.delivered, a.n);
    }
    forall k | Active(c, k) ensures c.hs[k].id !in ids {
      OwnedIsNotIdle(cfg, s, i, c.hs[k].id);
    }
    BatchOwner(s.broker, i, c, ids, s.now, a.replied, next);
    SameOwner(Deliver(s.broker, ids, i, s.now), NextBroker(cfg, s, i, c, a), i,
              Batch(c, ids, s.now, a.replied, next), NextConsumer(cfg, s, c, a));
  }

  lemma StartKeepsOwner(cfg: Config, s: State, i: nat)
    requires i < |s.consumers| && Owner(s.broker, i, s.consumers[i]) && Enabled(cfg, s, On(i, Start))
    ensures Owner(s.broker, i, NextConsumer(cfg, s, s.consumers[i], Start))
  {
    var c, d := s.consumers[i], NextConsumer(cfg, s, s.consumers[i], Start);
    forall q | 0 <= q < |d.queue| ensures d.queue[q] == c.queue[q + 1] {
    }
    forall k | Active(d, k) ensures k < |c.hs| ==> Active(c, k) && d.hs[k] == c.hs[k] {
    }
    assert Holds(s.broker, i, c.queue[0], c.sent);
  }

  /** A handling goes on or ends, and the broker may hear of it. */
  lemma PhaseKeepsOwner(b: Broker, b': Broker, i: nat, c: Consumer, k: nat, p: Phase)
    requires Owner(b, i, c) && Active(c, k)
    requires b'.pending == b.pending || (p == Done && b'.pending == b.pending - {c.hs[k].id})
    ensures Owner(b', i, SetPhase(c, k, p))
  {
    var d := SetPhase(c, k, p);
    forall l | Active(d, l) ensures Active(c, l) && d.hs[l].id == c.hs[l].id && d.hs[l].delivered == c.hs[l].delivered {
    }
    forall l | Active(d, l) ensures Holds(b', i, d.hs[l].id, d.hs[l].delivered) {
      assert Holds(b, i, c.hs[l].id, c.hs[l].delivered);
    }
    forall q | 0 <= q < |c.queue| ensures Holds(b', i, c.queue[q], c.sent) {
      assert Holds(b, i, c.queue[q], c.sent);
    }
  }

  lemma OwnKeepsOwner(cfg: Config, s: State, i: nat, a: Action)
    requires cfg.slots > 0 && cfg.handling >= 0 && LongestTurn(cfg) < cfg.idle
    requires Inv(cfg, s) && Enabled(cfg, s, On(i, a))
    ensures Owner(NextBroker(cfg, s, i, s.consumers[i], a), i, NextConsumer(cfg, s, s.consumers[i], a))
  {
    var c, b := s.consumers[i], NextBroker(cfg, s, i, s.consumers[i], a);
    assert Owner(s.broker, i, c);
    match a
    case Claim(_, _) => BatchKeepsOwner(cfg, s, i, a);
    case Read(_, _) => BatchKeepsOwner(cfg, s, i, a);
    case Start => StartKeepsOwner(cfg, s, i);
    case Return(k, ok) => PhaseKeepsOwner(s.broker, b, i, c, k, if ok then Acking else Nacking);
    case Ack(k, _) => PhaseKeepsOwner(s.broker, b, i, c, k, Done);
    case Nack(k) => PhaseKeepsOwner(s.broker, b, i, c, k, Done);
    case _ =>
  }

  lemma StepKeepsInv(cfg: Config, s: State, e: Event)
    requires cfg.slots > 0 && cfg.handling >= 0 && LongestTurn(cfg) < cfg.idle
    requires Inv(cfg, s) && Enabled(cfg, s, e) && Timely(cfg, s, e)
    ensures Inv(cfg, Apply(cfg, s, e))
  {
    StepKeepsGroupInv(cfg, s, e);
    StepKeepsOnTime(cfg, s, e);
    var t := Apply(cfg, s, e);
    forall i | 0 <= i < |t.consumers| ensures Owner(t.broker, i, t.consumers[i]) && Quick(cfg, t.consumers[i]) {
      if e.On? && e.c == i {
        OwnKeepsOwner(cfg, s, i, e.a);
        ActionKeepsQuick(cfg, s, s.consumers[i], e.a);
      } else if e.On? {
        OtherKeepsOwner(cfg, s, i, e.c, e.a);
      }
    }
  }

  lemma {:induction false} RunKeepsInv(cfg: Config, s: State, es: seq<Event>)
    requires cfg.slots > 0 && cfg.handling >= 0 && LongestTurn(cfg) < cfg.idle
    requires Inv(cfg, s) && Legal(cfg, s, es) && TimelyRun(cfg, s, es)
    ensures Inv(cfg, Exec(cfg, s, es))
    decreases es
  {
    if es != [] {
      StepKeepsInv(cfg, s, es[0]);
      RunKeepsInv(cfg, Apply(cfg, s, es[0]), es[1..]);
    }
  }

  lemma InvMeansNoOverlap(cfg: Config, s: State)
    requires cfg.slots > 0 && Inv(cfg, s)
    ensures NoOverlap(s)
  {
    forall i, j, k, l | 0 <= i < |s.consumers| && 0 <= j < |s.consumers| &&
                        Active(s.consumers[i], k) && Active(s.consumers[j], l) && (i, k) != (j, l)
      ensures s.consumers[i].hs[k].id != s.consumers[j].hs[l].id
    {
      assert Owner(s.broker, i, s.consumers[i]) && Owner(s.broker, j, s.consumers[j]);
    }
  }

  /**
   * No double handling: with all consumers of the group configured alike, if (ceil(B / slots) + 1) * handling is below
   * the idle timeout for the largest batch B, no two handlers of one entry ever overlap, across all consumers,
   * crashes, claims and nacks.
   */
  lemma NoOverlapIfTurnsAreShort(cfg: Config, start: nat, es: seq<Event>)
    requires Accepted(cfg) && LongestTurn(cfg) < cfg.idle
    requires Legal(cfg, Init(start), es) && TimelyRun(cfg, Init(start), es)
    ensures NoOverlap(Exec(cfg, Init(start), es))
  {
    RunKeepsInv(cfg, Init(start), es);
    InvMeansNoOverlap(cfg, Exec(cfg, Init(start), es));
  }
}
