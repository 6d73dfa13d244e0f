/**
 * The other direction: when the longest turn is not below the idle timeout, some timely run handles an entry twice at
 * the same time, although the configuration passes the constructor's check.
 */
module RedisOverlapWitness {
  import opened Wrappers
  import opened RedisGroup
  import opened RedisTiming
  import opened RedisOverlap
  import opened RedisRuns

  // ----- a stage: three consumers, of which only the second one works

  /** Consumer 1 works on its batch; all it handles was started just now. */
  ghost predicate Stage(s: State) {
    && |s.consumers| == 3 && Resting(s.consumers[0]) && Resting(s.consumers[2])
    && s.consumers[1].alive && !s.consumers[1].ctxDone && s.consumers[1].arrived && !s.consumers[1].admitted
    && (forall k | Active(s.consumers[1], k) ::
          s.consumers[1].hs[k].phase == Running && s.consumers[1].hs[k].start == s.now)
  }

  /** Consumer 1 changed only in what it handles and what is left to start. */
  predicate Works(c: Consumer, d: Consumer) {
    d == c.(hs := d.hs, queue := d.queue)
  }

  ghost predicate RunningOnly(c: Consumer) {
    forall k | Active(c, k) :: c.hs[k].phase == Running
  }

  /** One of the handlers of consumer 1 fails. */
  lemma FinishOne(cfg: Config, z: State, s: State, k: nat) returns (t: State)
    requires Reaches(cfg, z, s) && |s.consumers| == 3 && s.consumers[1].alive
    requires Active(s.consumers[1], k) && RunningOnly(s.consumers[1])
    ensures Reaches(cfg, z, t) && Elsewhere(s, t, 1) && RunningOnly(t.consumers[1])
    ensures t.consumers[1] == s.consumers[1].(hs := t.consumers[1].hs)
    ensures NumActive(t.consumers[1].hs) < NumActive(s.consumers[1].hs)
  {
    var c := s.consumers[1];
    t := Then(cfg, z, s, On(1, Return(k, false)), false);
    t := Then(cfg, z, t, On(1, Nack(k)), false);
    var h := c.hs[k].(phase := Done);
    assert t.consumers[1].hs == c.hs[k := h];
    ActiveUpdate(c.hs, k, h);
    assert forall l | Active(t.consumers[1], l) :: Active(c, l);
  }

  /** All the handlers of consumer 1 fail. */
  lemma {:induction false} FinishAll(cfg: Config, z: State, s: State) returns (t: State)
    requires Reaches(cfg, z, s) && |s.consumers| == 3 && s.consumers[1].alive && RunningOnly(s.consumers[1])
    ensures Reaches(cfg, z, t) && Elsewhere(s, t, 1) && AllDone(t.consumers[1].hs)
    ensures t.consumers[1] == s.consumers[1].(hs := t.consumers[1].hs)
    decreases NumActive(s.consumers[1].hs)
  {
    if NumActive(s.consumers[1].hs) == 0 {
      InactiveIsAllDone(s.consumers[1].hs);
      t := s;
    } else {
      ActiveEarly(s.consumers[1].hs, 1);
      var k: nat :| Active(s.consumers[1], k);
      t := FinishOne(cfg, z, s, k);
      t := FinishAll(cfg, z, t);
    }
  }

  /** Consumer 1 starts the next message of its batch. */
  lemma StartOne(cfg: Config, z: State, s: State) returns (t: State)
    requires Reaches(cfg, z, s) && Stage(s)
    requires s.consumers[1].queue != [] && NumActive(s.consumers[1].hs) < cfg.slots
    ensures Reaches(cfg, z, t) && Stage(t) && Elsewhere(s, t, 1) && Works(s.consumers[1], t.consumers[1])
    ensures t.consumers[1].queue == s.consumers[1].queue[1..]
    ensures NumActive(t.consumers[1].hs) == NumActive(s.consumers[1].hs) + 1
    ensures exists k :: Active(t.consumers[1], k) && t.consumers[1].hs[k].id == s.consumers[1].queue[0]
  {
    var c := s.consumers[1];
    var r := Then(cfg, z, s, On(1, Check), false);
    t := Then(cfg, z, r, On(1, Start), false);
    var h := Handling(c.queue[0], c.sent, s.now, Running);
    ActiveAppend(c.hs, h);
    assert t.consumers[1].hs == c.hs + [h];
    assert forall k | Active(t.consumers[1], k) :: k == |c.hs| || Active(c, k);
    assert Active(t.consumers[1], |c.hs|);
  }

  /** Consumer 1 starts n more messages of its batch. */
  lemma {:induction false} StartMany(cfg: Config, z: State, s: State, n: nat) returns (t: State)
    requires Reaches(cfg, z, s) && Stage(s)
    requires n <= |s.consumers[1].queue| && NumActive(s.consumers[1].hs) + n <= cfg.slots
    ensures Reaches(cfg, z, t) && Stage(t) && Elsewhere(s, t, 1) && Works(s.consumers[1], t.consumers[1])
    ensures t.consumers[1].queue == s.consumers[1].queue[n..]
    ensures NumActive(t.consumers[1].hs) == NumActive(s.consumers[1].hs) + n
    ensures n > 0 ==> exists k :: Active(t.consumers[1], k) && t.consumers[1].hs[k].id == s.consumers[1].queue[n - 1]
  {
    if n == 0 {
      t := s;
    } else {
      var r := StartMany(cfg, z, s, n - 1);
      t := StartOne(cfg, z, r);
    }
  }

  predicate AtEnd(q: seq<Id>, last: Id) {
    q != [] && q[|q| - 1] == last
  }

  /** While all slots of consumer 1 are taken, its handlers take as long as they may. */
  lemma PassRound(cfg: Config, z: State, s: State) returns (t: State)
    requires Accepted(cfg) && Reaches(cfg, z, s) && Stage(s) && NumActive(s.consumers[1].hs) == cfg.slots
    ensures Reaches(cfg, z, t) && Stage(t) && t.now == s.now + cfg.handling && t.broker == s.broker
    ensures t.consumers[1].queue == s.consumers[1].queue && NumActive(t.consumers[1].hs) == 0
  {
    AllDoneIsInactive(s.consumers[0].hs);
    AllDoneIsInactive(s.consumers[2].hs);
    t := Then(cfg, z, s, Tick(cfg.handling), false);
    t := FinishAll(cfg, z, t);
    AllDoneIsInactive(t.consumers[1].hs);
  }

  /**
   * Every handling lasts as long as it may, so a queue of n messages behind full slots takes ceil(n / slots) rounds,
   * and the last one is started at the end of them.
   */
  lemma {:induction false} Rounds(cfg: Config, z: State, s: State, last: Id) returns (t: State)
    requires Accepted(cfg) && Reaches(cfg, z, s) && Stage(s)
    requires NumActive(s.consumers[1].hs) == cfg.slots && AtEnd(s.consumers[1].queue, last)
    ensures Reaches(cfg, z, t) && Stage(t) && t.broker == s.broker && t.consumers[1].queue == []
    ensures t.now == s.now + SlotWait(cfg, |s.consumers[1].queue|)
    ensures exists k :: Active(t.consumers[1], k) && t.consumers[1].hs[k].id == last
    decreases |s.consumers[1].queue|
  {
    var q := s.consumers[1].queue;
    var v := PassRound(cfg, z, s);
    var n := if |q| <= cfg.slots then |q| else cfg.slots;
    var w := StartMany(cfg, z, v, n);
    if |q| <= cfg.slots {
      SlotWaitSteps(cfg, |q|);
      t := w;
    } else {
      SlotWaitSteps(cfg, |q| - cfg.slots);
      t := Rounds(cfg, z, w, last);
    }
  }

  // ----- setting the stage

  /** n entries were delivered at time 0 to consumer 0, whose handlers failed. */
  ghost predicate Prepared(s: State, n: nat) {
    && s.now == 0 && |s.consumers| == 3
    && (forall i | 0 <= i < 3 :: Resting(s.consumers[i])) && s.consumers[1].hs == []
    && s.broker.appended == s.broker.delivered == n && Since(s.broker, n, 0)
  }

  /** Consumer 0 makes one iteration: an empty claim, a read of one new entry, and a handler that fails. */
  lemma ServeNext(cfg: Config, z: State, s: State) returns (t: State)
    requires Accepted(cfg) && Reaches(cfg, z, s) && s.broker.delivered < cfg.batch && Prepared(s, s.broker.delivered)
    ensures Reaches(cfg, z, t) && Prepared(t, s.broker.delivered + 1)
  {
    var n := s.broker.delivered;
    t := EmptyClaim(cfg, z, s, 0, 0);
    t := ReadNew(cfg, z, t, 0, 1, false);
    assert NewIds(n, 1) == [n + 1];
    t := ServeOne(cfg, z, t, 0, false);
  }

  lemma {:induction false} Prepare(cfg: Config, n: nat) returns (s: State)
    requires Accepted(cfg) && n <= cfg.batch
    ensures Reaches(cfg, Init(0), s) && Prepared(s, n)
  {
    var z := Init(0);
    if n == 0 {
      Stay(cfg, z, false);
      s := Then(cfg, z, z, Join, false);
      s := Then(cfg, z, s, Join, false);
      s := Then(cfg, z, s, Join, false);
    } else {
      s := Prepare(cfg, n - 1);
      s := ServeNext(cfg, z, s);
    }
  }

  /** The first batch is idle, and consumer 1 has read new entries, which are its first. */
  ghost predicate Full(cfg: Config, s: State) {
    && Stage(s) && s.now == cfg.idle && s.consumers[1].cursor == 0 && s.consumers[1].pc.Testing?
    && Since(s.broker, cfg.batch, 0) && cfg.batch <= s.broker.delivered
  }

  /** Consumer 1 claims nothing just before the first batch is idle, and then reads as much as it has slots. */
  lemma FillSlots(cfg: Config) returns (t: State)
    requires Accepted(cfg)
    ensures Reaches(cfg, Init(0), t) && Full(cfg, t)
    ensures t.consumers[1].queue == [] && NumActive(t.consumers[1].hs) == cfg.slots
  {
    var z, n := Init(0), cfg.batch;
    var s := Prepare(cfg, n);
    forall i | 0 <= i < 3 ensures NumActive(s.consumers[i].hs) == 0 {
      AllDoneIsInactive(s.consumers[i].hs);
    }
    s := Then(cfg, z, s, Tick(cfg.idle - 1), false);
    s := EmptyClaim(cfg, z, s, 1, 0);
    s := Then(cfg, z, s, Tick(1), false);
    s := ReadNew(cfg, z, s, 1, cfg.slots, false);
    NewIdsAre(n, cfg.slots);
    t := StartMany(cfg, z, s, cfg.slots);
  }

  /** All slots of consumer 1 are taken, and it claims a full batch. */
  lemma SetStage(cfg: Config) returns (t: State)
    requires Accepted(cfg)
    ensures Reaches(cfg, Init(0), t) && Stage(t) && NumActive(t.consumers[1].hs) == cfg.slots
    ensures |t.consumers[1].queue| == cfg.batch && AtEnd(t.consumers[1].queue, cfg.batch)
    ensures Since(t.broker, cfg.batch, t.now) && cfg.batch <= t.broker.delivered
  {
    var z := Init(0);
    var s := FillSlots(cfg);
    FirstIsSince(s.broker, 1, cfg.batch, s.now);
    t := ClaimFirst(cfg, z, s, 1, 0);
    t := Then(cfg, z, t, On(1, Arrive), false);
    assert First(cfg.batch)[cfg.batch - 1] == cfg.batch;
  }

  /** Consumer 2 claims the first batch, which is idle again, and comes to its last entry. */
  lemma ClaimAgain(cfg: Config, z: State, s: State, claimed: int) returns (t: State)
    requires Accepted(cfg) && Reaches(cfg, z, s) && |s.consumers| == 3 && Resting(s.consumers[2])
    requires Since(s.broker, cfg.batch, claimed) && cfg.batch <= s.broker.delivered && s.now >= claimed + cfg.idle
    ensures Reaches(cfg, z, t) && |t.consumers| == 3 && t.consumers[1] == s.consumers[1]
    ensures exists l :: Active(t.consumers[2], l) && t.consumers[2].hs[l].id == cfg.batch
  {
    t := ClaimFirst(cfg, z, s, 2, claimed);
    t := Then(cfg, z, t, On(2, Arrive), false);
    t := ServeAllButLast(cfg, z, t, 2, false);
    var c := t.consumers[2];
    t := StartHead(cfg, z, t, 2, false);
    assert Active(t.consumers[2], |c.hs|);
  }

  /** Another consumer claims the batch and comes to its last entry while consumer 1 handles it. */
  lemma Collide(cfg: Config, z: State, s: State, claimed: int) returns (t: State)
    requires Accepted(cfg) && Reaches(cfg, z, s) && Stage(s) && s.consumers[1].queue == []
    requires Since(s.broker, cfg.batch, claimed) && cfg.batch <= s.broker.delivered
    requires exists k :: Active(s.consumers[1], k) && s.consumers[1].hs[k].id == cfg.batch
    requires s.now + cfg.handling >= claimed + cfg.idle
    ensures Reaches(cfg, z, t) && !NoOverlap(t)
  {
    var k :| Active(s.consumers[1], k) && s.consumers[1].hs[k].id == cfg.batch;
    var d := claimed + cfg.idle - s.now;
    AllDoneIsInactive(s.consumers[0].hs);
    AllDoneIsInactive(s.consumers[2].hs);
    var u := Then(cfg, z, s, Tick(if d > 0 then d else 0), false);
    t := ClaimAgain(cfg, z, u, claimed);
    var l :| Active(t.consumers[2], l) && t.consumers[2].hs[l].id == cfg.batch;
    assert Active(t.consumers[1], k);
    assert t.consumers[1].hs[k].id == t.consumers[2].hs[l].id;
  }

  /** Consumer 1 handles the last entry of the batch it claimed, for as long as a turn may last. */
  ghost predicate Late(cfg: Config, s: State, claimed: int)
    requires cfg.slots > 0
  {
    && Stage(s) && s.consumers[1].queue == []
    && Since(s.broker, cfg.batch, claimed) && cfg.batch <= s.broker.delivered
    && (exists k :: Active(s.consumers[1], k) && s.consumers[1].hs[k].id == cfg.batch)
    && s.now + cfg.handling == claimed + LongestTurn(cfg)
  }

  /** A batch of as many messages as there are slots waits no longer than a single one. */
  lemma LargestWait(cfg: Config)
    requires Accepted(cfg)
    ensures SlotWait(cfg, LargestBatch(cfg)) == SlotWait(cfg, cfg.batch)
  {
    if cfg.batch <= cfg.slots {
      SlotWaitSteps(cfg, cfg.batch);
      SlotWaitSteps(cfg, cfg.slots);
    }
  }

  /** The batch finds all slots taken. */
  lemma LateForSlots(cfg: Config) returns (t: State, claimed: int)
    requires Accepted(cfg) && cfg.latency <= cfg.handling
    ensures Reaches(cfg, Init(0), t) && Late(cfg, t, claimed)
  {
    t := SetStage(cfg);
    claimed := t.now;
    t := Rounds(cfg, Init(0), t, cfg.batch);
    LargestWait(cfg);
  }

  /** Consumer 1 claims the first batch, which takes as long as it may to arrive. */
  lemma ClaimSlowly(cfg: Config) returns (t: State)
    requires Accepted(cfg)
    ensures Reaches(cfg, Init(0), t) && Stage(t) && t.now == cfg.idle + cfg.latency
    ensures t.consumers[1].queue == First(cfg.batch) && NumActive(t.consumers[1].hs) == 0
    ensures Since(t.broker, cfg.batch, cfg.idle) && cfg.batch <= t.broker.delivered
  {
    var z := Init(0);
    t := Prepare(cfg, cfg.batch);
    forall i | 0 <= i < 3 ensures NumActive(t.consumers[i].hs) == 0 {
      AllDoneIsInactive(t.consumers[i].hs);
    }
    t := Then(cfg, z, t, Tick(cfg.idle), false);
    FirstIsSince(t.broker, 1, cfg.batch, t.now);
    t := ClaimFirst(cfg, z, t, 1, 0);
    t := Then(cfg, z, t, Tick(cfg.latency), false);
    t := Then(cfg, z, t, On(1, Arrive), false);
  }

  /** The reply takes longer than a handling. */
  lemma LateForReply(cfg: Config) returns (t: State, claimed: int)
    requires Accepted(cfg) && cfg.latency > cfg.handling
    ensures Reaches(cfg, Init(0), t) && Late(cfg, t, claimed)
  {
    var z, n := Init(0), cfg.batch;
    claimed := cfg.idle;
    t := ClaimSlowly(cfg);
    LargestWait(cfg);
    assert First(n)[n - 1] == n;
    if n <= cfg.slots {
      t := StartMany(cfg, z, t, n);
      SlotWaitSteps(cfg, n);
    } else {
      t := StartMany(cfg, z, t, cfg.slots);
      SlotWaitSteps(cfg, n - cfg.slots);
      t := Rounds(cfg, z, t, n);
    }
  }

  /** The run: its last state has two handlers on the last entry of the batch. */
  lemma Overlap(cfg: Config) returns (t: State)
    requires Accepted(cfg) && LongestTurn(cfg) >= cfg.idle
    ensures Reaches(cfg, Init(0), t) && !NoOverlap(t)
  {
    var claimed;
    if cfg.latency <= cfg.handling {
      t, claimed := LateForSlots(cfg);
    } else {
      t, claimed := LateForReply(cfg);
    }
    t := Collide(cfg, Init(0), t, claimed);
  }

  /**
   * For every configuration the constructor accepts: no timely run of the group ever handles an entry twice at the
   * same time if and only if the longest turn is below the idle timeout.
   */
  lemma NoOverlapIff(cfg: Config)
    requires Accepted(cfg)
    ensures (forall t :: Reaches(cfg, Init(0), t) ==> NoOverlap(t)) <==> LongestTurn(cfg) < cfg.idle
  {
    forall t | Reaches(cfg, Init(0), t) && LongestTurn(cfg) < cfg.idle ensures NoOverlap(t) {
      var es :| Legal(cfg, Init(0), es) && TimelyRun(cfg, Init(0), es) && Exec(cfg, Init(0), es) == t;
      NoOverlapIfTurnsAreShort(cfg, 0, es);
    }
    if LongestTurn(cfg) >= cfg.idle {
      var t := Overlap(cfg);
    }
  }

  /**
   * What the longest turn is: as long as a reply takes no longer than a handling, the way of the batch does not count,
   * since the slots it waits for are taken just as long. A slower reply counts instead of the first handling.
   */
  lemma LongestTurnIs(cfg: Config)
    requires Accepted(cfg)
    ensures var rounds := (LargestBatch(cfg) + cfg.slots - 1) / cfg.slots;
      LongestTurn(cfg) ==
        (rounds + 1) * cfg.handling + if cfg.latency > cfg.handling then cfg.latency - cfg.handling else 0
  {
    var rounds := (LargestBatch(cfg) + cfg.slots - 1) / cfg.slots;
    assert (rounds + 1) * cfg.handling == rounds * cfg.handling + cfg.handling;
  }

  /**
   * The default processing timeout, 4/5 of the idle timeout, always passes the constructor's check, and for no idle
   * timeout, number of slots, batch size or latency does it exclude two handlers of one entry at the same time.
   */
  lemma DefaultTimeoutMayOverlap(slots: nat, idle: int, batch: nat, latency: nat)
    requires slots > 0 && batch > 0 && idle >= 2
    ensures var cfg := Config(slots, ProcessingTimeout(None, idle), idle, batch, latency);
      Accepted(cfg) && exists t :: Reaches(cfg, Init(0), t) && !NoOverlap(t)
  {
    var cfg := Config(slots, ProcessingTimeout(None, idle), idle, batch, latency);
    WaitMonotone(cfg, FirstWait(cfg), 1, LargestBatch(cfg));
    var t := Overlap(cfg);
  }
}
