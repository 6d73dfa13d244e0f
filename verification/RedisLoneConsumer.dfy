/**
 * When the only consumer of a group comes back to the entries that are left pending: every read may deliver as many
 * entries as there are slots, so the claim cursor must be able to move faster than that.
 */
module RedisLoneConsumer {
  import opened Sequences
  import opened RedisGroup
  import opened RedisTiming
  import opened RedisRuns
  import opened RedisGroupSweep
  import Receive = RedisGroupReceive
  import Sweep = RedisSweep

  /** No other consumer joins. */
  predicate Alone(es: seq<Event>) {
    forall i | 0 <= i < |es| :: !es[i].Join?
  }

  /** Entry x is pending all the time, and idle at each claim. */
  predicate StaysIdle(cfg: Config, s: State, es: seq<Event>, x: Id)
    requires Legal(cfg, s, es)
    decreases es
  {
    x in s.broker.pending &&
    (es == [] ||
     ((Claims(es[0], 0) ==> x in Idle(cfg, s)) && StaysIdle(cfg, Apply(cfg, s, es[0]), es[1..], x)))
  }

  // ----- with fewer slots than a claim may take

  /** In each round x is left alone, and what a read delivers is at most one read after each claim. */
  ghost predicate OneReadEach(cfg: Config, s: State, first: Sweep.State, rs: seq<Sweep.Round>, x: Id) {
    && |s.consumers| == 1
    && (forall k | 0 <= k < |rs| :: Receive.LeavesIn(cfg.batch, first, rs, k, x, cfg.slots))
    && (rs != [] && s.consumers[0].pc.Reading? ==> rs[|rs| - 1].added == [])
  }

  lemma ClaimKeepsOneReadEach(cfg: Config, s: State, e: Event, first: Sweep.State, rs: seq<Sweep.Round>, x: Id)
    requires Enabled(cfg, s, e) && Claims(e, 0) && OneReadEach(cfg, s, first, rs, x) && x in Idle(cfg, s)
    ensures OneReadEach(cfg, Apply(cfg, s, e), first, RoundsAfter(cfg, s, e, 0, rs), x)
  {
    var qs := rs + [OpenedRound(cfg, s)];
    assert forall k | 0 <= k < |rs| :: qs[..k] == rs[..k];
    forall k | 0 <= k < |qs| ensures Receive.LeavesIn(cfg.batch, first, qs, k, x, cfg.slots) {
      if k < |rs| {
        assert Receive.LeavesIn(cfg.batch, first, rs, k, x, cfg.slots);
      }
    }
  }

  /** What a step that is not a claim delivers. */
  lemma ReadIsFirst(cfg: Config, s: State, e: Event, first: Sweep.State, rs: seq<Sweep.Round>, x: Id)
    requires GroupInv(s) && Enabled(cfg, s, e) && !e.Join? && !Claims(e, 0) && OneReadEach(cfg, s, first, rs, x)
    ensures |NewlyDelivered(s, e)| <= cfg.slots
    ensures rs != [] && NewlyDelivered(s, e) != [] ==> rs[|rs| - 1].added == []
    ensures var t := Apply(cfg, s, e);
      |t.consumers| == 1 && (t.consumers[0].pc.Reading? ==> s.consumers[0].pc.Reading? && NewlyDelivered(s, e) == [])
  {
  }

  lemma OtherKeepsOneReadEach(
    cfg: Config, s: State, e: Event, first: Sweep.State, rs: seq<Sweep.Round>, got: seq<seq<Id>>, x: Id)
    requires GroupInv(s) && Enabled(cfg, s, e) && !e.Join? && !Claims(e, 0) && OneReadEach(cfg, s, first, rs, x)
    requires rs != [] && Sweeps(cfg, s, 0, first, rs, got) && x in Apply(cfg, s, e).broker.pending
    ensures OneReadEach(cfg, Apply(cfg, s, e), first, RoundsAfter(cfg, s, e, 0, rs), x)
  {
    var more, gone, n := NewlyDelivered(s, e), NewlyAcked(cfg, s, e), |rs| - 1;
    var qs := RoundsAfter(cfg, s, e, 0, rs);
    ReadIsFirst(cfg, s, e, first, rs, x);
    KeysAfter(cfg, s, e, x);
    assert forall k | 0 <= k <= n :: qs[..k] == rs[..k];
    assert Receive.LeavesIn(cfg.batch, first, rs, n, x, cfg.slots);
    assert rs[n].added + more == if more == [] then rs[n].added else more;
    assert View(s, 0).last == s.broker.delivered;
    forall k | 0 <= k < |qs| ensures Receive.LeavesIn(cfg.batch, first, qs, k, x, cfg.slots) {
      if k < n {
        assert Receive.LeavesIn(cfg.batch, first, rs, k, x, cfg.slots);
      }
    }
  }

  lemma {:induction false} RunKeepsOneReadEach(
    cfg: Config, s: State, es: seq<Event>, first: Sweep.State, rs: seq<Sweep.Round>, got: seq<seq<Id>>, x: Id)
    requires GroupInv(s) && Legal(cfg, s, es) && Alone(es) && StaysIdle(cfg, s, es, x)
    requires Sweeps(cfg, s, 0, first, rs, got) && OneReadEach(cfg, s, first, rs, x)
    requires rs == [] && es != [] ==> Claims(es[0], 0)
    ensures OneReadEach(cfg, Exec(cfg, s, es), first, Rounds(cfg, s, es, 0, rs), x)
    decreases es
  {
    if es != [] {
      var e, t := es[0], Apply(cfg, s, es[0]);
      StepKeepsGroupInv(cfg, s, e);
      StepSweeps(cfg, s, e, 0, first, rs, got);
      if Claims(e, 0) {
        ClaimKeepsOneReadEach(cfg, s, e, first, rs, x);
      } else {
        OtherKeepsOneReadEach(cfg, s, e, first, rs, got, x);
      }
      RunKeepsOneReadEach(cfg, t, es[1..], first, RoundsAfter(cfg, s, e, 0, rs), got + ReplyOf(e, 0), x);
    }
  }

  /**
   * With fewer slots than a claim may take, every entry that is pending and idle for two claims more than the pending
   * list is long is in the reply of one of them, in every run of a group with one consumer.
   */
  lemma LoneConsumerClaims(cfg: Config, s: State, es: seq<Event>, x: Id)
    requires cfg.slots < cfg.batch && GroupInv(s) && |s.consumers| == 1
    requires Legal(cfg, s, es) && Alone(es) && es != [] && Claims(es[0], 0) && StaysIdle(cfg, s, es, x)
    requires |Replies(es, 0)| > |PendingFrom(s.broker, 0)| + 1
    ensures exists k :: 0 <= k < |Replies(es, 0)| && x in Replies(es, 0)[k]
  {
    var first := View(s, 0);
    var rs := Rounds(cfg, s, es, 0, []);
    PendingHas(s.broker, 0, x);
    RunSweeps(cfg, s, es, 0, first, [], []);
    assert [] + Replies(es, 0) == Replies(es, 0);
    RunKeepsOneReadEach(cfg, s, es, first, [], [], x);
    WaitingEntryIsClaimed(cfg, s, es, 0, 0, x, cfg.slots);
  }

  // ----- runs in which x is not claimed

  /** A timely run of the lone consumer in which x is pending all the time, idle at each claim, and never claimed. */
  ghost predicate Starving(cfg: Config, s: State, es: seq<Event>, x: Id) {
    && Legal(cfg, s, es) && TimelyRun(cfg, s, es) && Alone(es) && StaysIdle(cfg, s, es, x)
    && forall k | 0 <= k < |Replies(es, 0)| :: x !in Replies(es, 0)[k]
  }

  lemma {:induction false} RepliesConcat(a: seq<Event>, b: seq<Event>)
    ensures Replies(a + b, 0) == Replies(a, 0) + Replies(b, 0)
  {
    if a == [] {
      assert a + b == b;
    } else {
      assert (a + b)[1..] == a[1..] + b;
      RepliesConcat(a[1..], b);
      ConcatAssociates(ReplyOf(a[0], 0), Replies(a[1..], 0), Replies(b, 0));
    }
  }

  lemma {:induction false} StaysIdleConcat(cfg: Config, s: State, a: seq<Event>, b: seq<Event>, x: Id)
    requires Legal(cfg, s, a) && Legal(cfg, Exec(cfg, s, a), b) && Legal(cfg, s, a + b)
    requires StaysIdle(cfg, s, a, x) && StaysIdle(cfg, Exec(cfg, s, a), b, x)
    ensures StaysIdle(cfg, s, a + b, x)
    decreases a
  {
    if a == [] {
      assert a + b == b;
    } else {
      assert (a + b)[1..] == a[1..] + b;
      StaysIdleConcat(cfg, Apply(cfg, s, a[0]), a[1..], b, x);
    }
  }

  lemma StarvingConcat(cfg: Config, s: State, a: seq<Event>, b: seq<Event>, x: Id)
    requires Starving(cfg, s, a, x) && Starving(cfg, Exec(cfg, s, a), b, x)
    ensures Starving(cfg, s, a + b, x) && Exec(cfg, s, a + b) == Exec(cfg, Exec(cfg, s, a), b)
    ensures |Replies(a + b, 0)| == |Replies(a, 0)| + |Replies(b, 0)|
  {
    Concat(cfg, s, a, b);
    StaysIdleConcat(cfg, s, a, b, x);
    RepliesConcat(a, b);
  }

  lemma {:induction false} QuietStarves(cfg: Config, s: State, es: seq<Event>, x: Id)
    requires Legal(cfg, s, es) && AllQuiet(es) && x in s.broker.pending
    ensures StaysIdle(cfg, s, es, x) && Replies(es, 0) == [] && Alone(es)
    decreases es
  {
    if es != [] {
      assert Quiet(es[0]);
      assert forall i | 0 <= i < |es[1..]| :: es[1..][i] == es[i + 1];
      QuietStarves(cfg, Apply(cfg, s, es[0]), es[1..], x);
    }
  }

  /** From a claim on, the lone consumer comes from s to t with so many claims, none of which takes x. */
  ghost predicate Passes(cfg: Config, s: State, t: State, x: Id, claims: nat) {
    exists es :: Starving(cfg, s, es, x) && Exec(cfg, s, es) == t && |Replies(es, 0)| == claims &&
                 (es != [] ==> Claims(es[0], 0))
  }

  lemma PassesNone(cfg: Config, s: State, x: Id)
    requires x in s.broker.pending
    ensures Passes(cfg, s, s, x, 0)
  {
    assert Legal(cfg, s, []) && TimelyRun(cfg, s, []) && Exec(cfg, s, []) == s && StaysIdle(cfg, s, [], x);
    assert Starving(cfg, s, [], x) && Replies([], 0) == [];
  }

  lemma PassesQuietly(cfg: Config, s: State, t: State, u: State, x: Id, claims: nat)
    requires Passes(cfg, s, t, x, claims) && claims > 0 && Goes(cfg, t, u, true) && x in t.broker.pending
    ensures Passes(cfg, s, u, x, claims)
  {
    var a :| Starving(cfg, s, a, x) && Exec(cfg, s, a) == t && |Replies(a, 0)| == claims &&
             (a != [] ==> Claims(a[0], 0));
    var b :| Legal(cfg, t, b) && TimelyRun(cfg, t, b) && Exec(cfg, t, b) == u && AllQuiet(b);
    QuietStarves(cfg, t, b, x);
    StarvingConcat(cfg, s, a, b, x);
    assert (a + b)[0] == a[0];
  }

  lemma PassesClaim(cfg: Config, s: State, t: State, e: Event, x: Id, claims: nat)
    requires Passes(cfg, s, t, x, claims) && Claims(e, 0) && Enabled(cfg, t, e)
    requires x in Idle(cfg, t) && x !in e.a.ids && x in Apply(cfg, t, e).broker.pending
    ensures Passes(cfg, s, Apply(cfg, t, e), x, claims + 1)
  {
    var a :| Starving(cfg, s, a, x) && Exec(cfg, s, a) == t && |Replies(a, 0)| == claims &&
             (a != [] ==> Claims(a[0], 0));
    OneStep(cfg, t, e);
    assert [e][1..] == [] && Replies([], 0) == [] && Replies([e], 0) == [e.a.ids];
    assert StaysIdle(cfg, Apply(cfg, t, e), [], x) && StaysIdle(cfg, t, [e], x);
    assert Starving(cfg, t, [e], x);
    StarvingConcat(cfg, s, a, [e], x);
    assert (a + [e])[0] == if a == [] then e else a[0];
  }

  // ----- with at least as many slots as a claim may take

  /** Every entry that was delivered is pending. */
  predicate NoneAcked(b: Broker) {
    b.appended == b.delivered && AllPending(b, b.delivered)
  }

  /** The entries of the claim from k + 1 on are idle, and there is one more after them. */
  lemma ClaimsBatchAt(cfg: Config, s: State, c: Consumer, k: nat)
    requires NoneAcked(s.broker) && k + cfg.batch < s.broker.delivered && cfg.batch > 0
    requires c.cursor == k + 1 || c.cursor == k == 0
    requires forall id: nat | k < id <= k + cfg.batch :: s.now - s.broker.pending[id].since >= cfg.idle
    ensures ClaimReply(cfg, s, c) == NewIds(k, cfg.batch) && NextCursor(cfg, s, c) == k + cfg.batch + 1
  {
    var n, left := cfg.batch, s.broker.delivered - k - cfg.batch;
    PendingBatchAt(s.broker, k, n, left, c.cursor);
    forall i | 0 <= i < n ensures NewIds(k, n)[i] in Idle(cfg, s) {
      assert NewIds(k, n)[i] == k + 1 + i;
    }
    ScansBatch(NewIds(k, n), NewIds(k + n, left), Idle(cfg, s));
  }

  /** The pending list from a cursor on, when nothing was acked. */
  lemma PendingBatchAt(b: Broker, k: nat, n: nat, left: nat, cursor: Id)
    requires NoneAcked(b) && b.delivered == k + n + left && (cursor == k + 1 || cursor == k == 0)
    ensures PendingFrom(b, cursor) == NewIds(k, n) + NewIds(k + n, left)
  {
    PendingStartsWith(b, b.delivered, k);
    assert NewIds(k, n + left) == NewIds(k, n) + NewIds(k + n, left);
  }

  /** A claim of idle entries, of which there are as many as it may take, stops at the next one. */
  lemma ScansBatch(ids: seq<Id>, rest: seq<Id>, idle: set<Id>)
    requires rest != [] && forall i | 0 <= i < |ids| :: ids[i] in idle
    ensures Sweep.Claimed(ids + rest, idle, |ids|, 10 * |ids|) == ids
    ensures Sweep.Scanned(ids + rest, idle, |ids|, 10 * |ids|) == |ids| && (ids + rest)[|ids|] == rest[0]
  {
    ClaimedPrefix(ids, rest, idle, 10 * |ids|);
    Sweep.ScanOfIdle(ids + rest, idle, |ids|, 10 * |ids|);
  }

  predicate NoneLater(s: State) {
    forall id | id in s.broker.pending :: s.broker.pending[id].since <= s.now
  }

  /** The lone consumer is about to claim from k + 1 on; all is pending and idle, two batches of it from there on. */
  ghost predicate Chasing(cfg: Config, s: State, k: nat) {
    && |s.consumers| == 1 && Serves(s.consumers[0]) && s.consumers[0].pc.Claiming? && s.consumers[0].queue == []
    && s.consumers[0].cursor == k + 1
    && NoneAcked(s.broker) && 0 < k && s.broker.delivered == k + 2 * cfg.batch
    && forall id | id in s.broker.pending :: s.now - s.broker.pending[id].since >= cfg.idle
  }

  /** The lone consumer reads a full batch of new entries, and fails to handle what it has and what it reads. */
  lemma ServeAndRead(cfg: Config, s: State) returns (t: State)
    requires Accepted(cfg) && cfg.batch <= cfg.slots && |s.consumers| == 1 && NoneAcked(s.broker)
    requires var c := s.consumers[0];
      Serves(c) && c.queue != [] && c.pc.Reading? && NoneLater(s)
    ensures Goes(cfg, s, t, true) && |t.consumers| == 1 && t.now == s.now + cfg.idle
    ensures var c, d := s.consumers[0], t.consumers[0];
      Serves(d) && d.queue == [] && d.pc.Claiming? && d.cursor == c.cursor
    ensures NoneAcked(t.broker) && t.broker.delivered == s.broker.delivered + cfg.batch
    ensures forall id | id in t.broker.pending :: t.now - t.broker.pending[id].since >= cfg.idle
  {
    Stay(cfg, s, true);
    t := ServeAll(cfg, s, s, 0, true);
    t := ReadNew(cfg, s, t, 0, cfg.batch, true);
    NewIdsAre(s.broker.delivered, cfg.batch);
    t := ServeAll(cfg, s, t, 0, true);
    AllDoneIsInactive(t.consumers[0].hs);
    t := Then(cfg, s, t, Tick(cfg.idle), true);
    t := Then(cfg, s, t, On(0, Loop), true);
  }

  function ChasedClaim(cfg: Config, k: nat): Event {
    On(0, Claim(NewIds(k, cfg.batch), true))
  }

  /** What the lone consumer has after a claim. */
  ghost predicate Claimed(cfg: Config, s: State, k: nat) {
    && |s.consumers| == 1 && NoneAcked(s.broker) && s.broker.delivered == k + 2 * cfg.batch
    && NoneLater(s)
    && var c := s.consumers[0];
       c.alive && !c.ctxDone && !c.admitted && AllDone(c.hs) &&
       c.queue != [] && c.pc.Reading? && c.cursor == k + cfg.batch + 1
  }

  /** The claim takes the batch at the cursor. */
  lemma ChaseClaims(cfg: Config, s: State, k: nat)
    requires Accepted(cfg) && Chasing(cfg, s, k)
    ensures var e := ChasedClaim(cfg, k);
      && Enabled(cfg, s, e) && 1 in Idle(cfg, s) && 1 !in e.a.ids
      && Claimed(cfg, Apply(cfg, s, e), k) && !Apply(cfg, s, e).consumers[0].arrived
  {
    ClaimsBatchAt(cfg, s, s.consumers[0], k);
    NewIdsAre(k, cfg.batch);
  }

  lemma ChaseClaim(cfg: Config, z: State, s: State, k: nat, claims: nat) returns (t: State)
    requires Accepted(cfg) && cfg.batch <= cfg.slots && Passes(cfg, z, s, 1, claims) && Chasing(cfg, s, k)
    ensures Passes(cfg, z, t, 1, claims + 1) && Claimed(cfg, t, k) && t.consumers[0].arrived
  {
    ChaseClaims(cfg, s, k);
    var u := Apply(cfg, s, ChasedClaim(cfg, k));
    PassesClaim(cfg, z, s, ChasedClaim(cfg, k), 1, claims);
    Stay(cfg, u, true);
    t := Then(cfg, u, u, On(0, Arrive), true);
    PassesQuietly(cfg, z, u, t, 1, claims + 1);
  }

  /** One iteration of the chase: the claim takes the batch at the cursor, and as much is read. */
  lemma ChaseOnce(cfg: Config, z: State, s: State, k: nat, claims: nat) returns (t: State)
    requires Accepted(cfg) && cfg.batch <= cfg.slots && Passes(cfg, z, s, 1, claims) && Chasing(cfg, s, k)
    ensures Passes(cfg, z, t, 1, claims + 1) && Chasing(cfg, t, k + cfg.batch)
  {
    var u := ChaseClaim(cfg, z, s, k, claims);
    t := ServeAndRead(cfg, u);
    PassesQuietly(cfg, z, u, t, 1, claims + 1);
  }

  lemma {:induction false} ChaseMany(cfg: Config, z: State, k: nat, claims: nat) returns (t: State)
    requires Accepted(cfg) && cfg.batch <= cfg.slots && Chasing(cfg, z, k)
    ensures Passes(cfg, z, t, 1, claims) && exists l :: Chasing(cfg, t, l)
  {
    if claims == 0 {
      PassesNone(cfg, z, 1);
      t := z;
    } else {
      t := ChaseMany(cfg, z, k, claims - 1);
      var l :| Chasing(cfg, t, l);
      t := ChaseOnce(cfg, z, t, l, claims - 1);
    }
  }

  /** The lone consumer failed to handle the first m entries, at time 0. */
  ghost predicate Began(s: State, m: nat) {
    && s.now == 0 && |s.consumers| == 1 && Resting(s.consumers[0])
    && s.broker.appended == s.broker.delivered == m && Since(s.broker, m, 0)
    && forall id | id in s.broker.pending :: id <= m
  }

  lemma DeliverBatch(cfg: Config, s: State, m: nat) returns (t: State)
    requires Accepted(cfg) && cfg.batch <= cfg.slots && m <= 10 * cfg.batch && Reaches(cfg, Init(0), s) && Began(s, m)
    ensures Reaches(cfg, Init(0), t) && Began(t, m + cfg.batch)
  {
    t := EmptyClaim(cfg, Init(0), s, 0, 0);
    t := ReadNew(cfg, Init(0), t, 0, cfg.batch, false);
    NewIdsAre(m, cfg.batch);
    t := ServeAll(cfg, Init(0), t, 0, false);
  }

  lemma DeliverThree(cfg: Config) returns (t: State)
    requires Accepted(cfg) && cfg.batch <= cfg.slots
    ensures Reaches(cfg, Init(0), t) && Began(t, 3 * cfg.batch)
  {
    Stay(cfg, Init(0), false);
    t := Then(cfg, Init(0), Init(0), Join, false);
    t := DeliverBatch(cfg, t, 0);
    t := DeliverBatch(cfg, t, cfg.batch);
    t := DeliverBatch(cfg, t, 2 * cfg.batch);
  }

  /** Three batches become idle. */
  lemma WaitOfThree(cfg: Config) returns (t: State)
    requires Accepted(cfg) && cfg.batch <= cfg.slots
    ensures Reaches(cfg, Init(0), t) && t.now == cfg.idle && |t.consumers| == 1 && Resting(t.consumers[0])
    ensures NoneAcked(t.broker) && t.broker.delivered == 3 * cfg.batch && Since(t.broker, t.broker.delivered, 0)
    ensures NoneLater(t)
  {
    t := DeliverThree(cfg);
    AllDoneIsInactive(t.consumers[0].hs);
    t := Then(cfg, Init(0), t, Tick(cfg.idle), false);
    assert 0 !in t.broker.pending;
  }

  /** Of three batches, the lone consumer claims the first one. */
  lemma ClaimOfThree(cfg: Config) returns (t: State)
    requires Accepted(cfg) && cfg.batch <= cfg.slots
    ensures Reaches(cfg, Init(0), t) && |t.consumers| == 1 && NoneAcked(t.broker)
    ensures t.broker.delivered == 3 * cfg.batch
    ensures NoneLater(t)
    ensures var c := t.consumers[0];
      Serves(c) && c.queue != [] && c.pc.Reading? && c.cursor == cfg.batch + 1
  {
    t := WaitOfThree(cfg);
    ClaimsBatchAt(cfg, t, t.consumers[0], 0);
    NewIdsAre(0, cfg.batch);
    t := ClaimFirst(cfg, Init(0), t, 0, 0);
    t := Then(cfg, Init(0), t, On(0, Arrive), false);
  }

  /** The first batch fails again, and all of it is behind the cursor. */
  lemma BeginChase(cfg: Config) returns (t: State)
    requires Accepted(cfg) && cfg.batch <= cfg.slots
    ensures Reaches(cfg, Init(0), t) && Chasing(cfg, t, cfg.batch)
  {
    t := ClaimOfThree(cfg);
    t := ServeAll(cfg, Init(0), t, 0, false);
    t := Then(cfg, Init(0), t, On(0, TimeOut), false);
    AllDoneIsInactive(t.consumers[0].hs);
    t := Then(cfg, Init(0), t, Tick(cfg.idle), false);
    t := Then(cfg, Init(0), t, On(0, Loop), false);
  }

  /**
   * With at least as many slots as a claim may take, there is for any number of claims a timely run of the lone
   * consumer in which entry 1 is pending all the time and idle at each of them, and none takes it.
   */
  lemma LoneConsumerMayStarve(cfg: Config, claims: nat)
    requires Accepted(cfg) && cfg.batch <= cfg.slots
    ensures exists s, t :: Reaches(cfg, Init(0), s) && |s.consumers| == 1 && Passes(cfg, s, t, 1, claims)
  {
    var s := BeginChase(cfg);
    var t := ChaseMany(cfg, s, cfg.batch, claims);
  }

  /** Starving for two claims more than the pending list is long. */
  ghost predicate Starved(cfg: Config, s: State, es: seq<Event>, x: Id) {
    && Starving(cfg, s, es, x) && |s.consumers| == 1 && es != [] && Claims(es[0], 0)
    && |Replies(es, 0)| > |PendingFrom(s.broker, 0)| + 1
  }

  /**
   * For every configuration the constructor accepts: in a group with one consumer, every entry that stays pending and
   * idle for two claims more than the pending list is long is claimed, in all timely runs, if and only if there are
   * fewer slots than a claim may take.
   */
  lemma LoneConsumerClaimsIff(cfg: Config)
    requires Accepted(cfg)
    ensures (forall s, es, x :: Reaches(cfg, Init(0), s) ==> !Starved(cfg, s, es, x)) <==> cfg.slots < cfg.batch
  {
    forall s, es, x | Reaches(cfg, Init(0), s) && cfg.slots < cfg.batch ensures !Starved(cfg, s, es, x) {
      if Starved(cfg, s, es, x) {
        var before :| Legal(cfg, Init(0), before) && Exec(cfg, Init(0), before) == s;
        GroupConservation(cfg, Init(0), before);
        LoneConsumerClaims(cfg, s, es, x);
      }
    }
    if cfg.slots >= cfg.batch {
      var s := BeginChase(cfg);
      var claims := |PendingFrom(s.broker, 0)| + 2;
      var t := ChaseMany(cfg, s, cfg.batch, claims);
      var es :| Starving(cfg, s, es, 1) && Exec(cfg, s, es) == t && |Replies(es, 0)| == claims &&
                (es != [] ==> Claims(es[0], 0));
      assert Starved(cfg, s, es, 1);
    }
  }

  const DefaultLimit: nat := 10

  /** The default limits, for the slots and for a claim, are equal, so an entry may starve with any timeouts. */
  lemma DefaultLimitsMayStarve(handling: int, idle: int, latency: nat, claims: nat)
    requires 0 < handling < idle
    ensures var cfg := Config(DefaultLimit, handling, idle, DefaultLimit, latency);
      Accepted(cfg) &&
      exists s, t :: Reaches(cfg, Init(0), s) && |s.consumers| == 1 && Passes(cfg, s, t, 1, claims)
  {
    LoneConsumerMayStarve(Config(DefaultLimit, handling, idle, DefaultLimit, latency), claims);
  }
}
