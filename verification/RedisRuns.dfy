/**
 * Runs of the group protocol that take no more time than the code may take, and pieces of them that are easy to
 * foresee: claims of a pending list that is all idle or not idle at all, and consumers whose handlers fail at once.
 */
module RedisRuns {
  import opened Wrappers
  import opened RedisGroup
  import opened RedisTiming
  import Sweep = RedisSweep

  /** The step neither claims, nor acks, nor brings another consumer. */
  predicate Quiet(e: Event) {
    !e.Join? && !(e.On? && (e.a.Claim? || e.a.Ack?))
  }

  predicate AllQuiet(es: seq<Event>) {
    forall i | 0 <= i < |es| :: Quiet(es[i])
  }

  /** Some timely run leads from s to t, and only with quiet steps if quiet is set. */
  ghost predicate Goes(cfg: Config, s: State, t: State, quiet: bool) {
    exists es :: Legal(cfg, s, es) && TimelyRun(cfg, s, es) && Exec(cfg, s, es) == t && (quiet ==> AllQuiet(es))
  }

  ghost predicate Reaches(cfg: Config, s: State, t: State) {
    Goes(cfg, s, t, false)
  }

  lemma Stay(cfg: Config, s: State, quiet: bool)
    ensures Goes(cfg, s, s, quiet)
  {
    assert Legal(cfg, s, []) && TimelyRun(cfg, s, []) && Exec(cfg, s, []) == s && AllQuiet([]);
  }

  lemma {:induction false} Concat(cfg: Config, s: State, a: seq<Event>, b: seq<Event>)
    requires Legal(cfg, s, a) && TimelyRun(cfg, s, a)
    requires Legal(cfg, Exec(cfg, s, a), b) && TimelyRun(cfg, Exec(cfg, s, a), b)
    ensures Legal(cfg, s, a + b) && TimelyRun(cfg, s, a + b)
    ensures Exec(cfg, s, a + b) == Exec(cfg, Exec(cfg, s, a), b)
    decreases a
  {
    if a == [] {
      assert a + b == b;
    } else {
      assert (a + b)[1..] == a[1..] + b;
      Concat(cfg, Apply(cfg, s, a[0]), a[1..], b);
    }
  }

  lemma OneStep(cfg: Config, t: State, e: Event)
    requires Enabled(cfg, t, e) && Timely(cfg, t, e)
    ensures Legal(cfg, t, [e]) && TimelyRun(cfg, t, [e]) && Exec(cfg, t, [e]) == Apply(cfg, t, e)
  {
    var u := Apply(cfg, t, e);
    assert [e][1..] == [] && Legal(cfg, u, []) && TimelyRun(cfg, u, []);
  }

  /** One more step of a run. */
  lemma Then(cfg: Config, s: State, t: State, e: Event, quiet: bool) returns (u: State)
    requires Goes(cfg, s, t, quiet) && Enabled(cfg, t, e) && Timely(cfg, t, e) && (quiet ==> Quiet(e))
    ensures u == Apply(cfg, t, e) && Goes(cfg, s, u, quiet)
  {
    u := Apply(cfg, t, e);
    var a :| Legal(cfg, s, a) && TimelyRun(cfg, s, a) && Exec(cfg, s, a) == t && (quiet ==> AllQuiet(a));
    OneStep(cfg, t, e);
    Concat(cfg, s, a, [e]);
    assert quiet ==> AllQuiet(a + [e]);
  }

  predicate AllDone(hs: seq<Handling>) {
    forall k | 0 <= k < |hs| :: hs[k].phase == Done
  }

  /** Between two iterations of its loop, with a claim cursor at the start of the pending list. */
  predicate Resting(c: Consumer) {
    c.alive && !c.ctxDone && c.pc.Testing? && c.cursor == 0 && Free(c) && !c.admitted && AllDone(c.hs)
  }

  lemma {:induction false} AllDoneIsInactive(hs: seq<Handling>)
    requires AllDone(hs)
    ensures NumActive(hs) == 0
  {
    if hs != [] {
      AllDoneIsInactive(hs[1..]);
    }
  }

  lemma {:induction false} InactiveIsAllDone(hs: seq<Handling>)
    requires NumActive(hs) == 0
    ensures AllDone(hs)
  {
    if hs != [] {
      InactiveIsAllDone(hs[1..]);
    }
  }

  // ----- claims that are easy to foresee

  /** The IDs 1 to n. */
  function First(n: nat): seq<Id> {
    NewIds(0, n)
  }

  predicate AllPending(b: Broker, n: nat) {
    0 !in b.pending && forall id: nat | 1 <= id <= n :: id in b.pending
  }

  /** The first n entries of the group were delivered at the given time. */
  predicate Since(b: Broker, n: nat, time: int) {
    AllPending(b, n) && forall id: nat | 1 <= id <= n :: b.pending[id].since == time
  }

  lemma {:induction false} PendingStartsWith(b: Broker, n: nat, k: nat)
    requires AllPending(b, n) && k <= n <= b.delivered
    ensures PendingFrom(b, k + 1) == NewIds(k, n - k) + PendingFrom(b, n + 1)
    decreases n - k
  {
    if k < n {
      PendingStartsWith(b, n, k + 1);
      assert NewIds(k, n - k) == [k + 1] + NewIds(k + 1, n - k - 1);
    }
  }

  lemma {:induction false} ClaimedPrefix(ids: seq<Id>, rest: seq<Id>, idle: set<Id>, tries: nat)
    requires |ids| <= tries && forall i | 0 <= i < |ids| :: ids[i] in idle
    ensures Sweep.Claimed(ids + rest, idle, |ids|, tries) == ids
  {
    if ids != [] {
      ClaimedPrefix(ids[1..], rest, idle, tries - 1);
      assert (ids + rest)[1..] == ids[1..] + rest;
    }
  }

  lemma {:induction false} NothingClaimed(p: seq<Id>, idle: set<Id>, want: nat, tries: nat)
    requires want > 0 && |p| <= tries && forall i | 0 <= i < |p| :: p[i] !in idle
    ensures Sweep.Claimed(p, idle, want, tries) == [] && Sweep.Scanned(p, idle, want, tries) == |p|
  {
    if p != [] {
      NothingClaimed(p[1..], idle, want, tries - 1);
    }
  }

  /** A claim from 0-0 takes the first batch when it is idle. */
  lemma ClaimsFirst(cfg: Config, s: State, c: Consumer, time: int)
    requires Since(s.broker, cfg.batch, time) && s.now - time >= cfg.idle
    requires c.cursor == 0 && cfg.batch <= s.broker.delivered
    ensures ClaimReply(cfg, s, c) == First(cfg.batch)
  {
    var n := cfg.batch;
    PendingStartsWith(s.broker, n, 0);
    assert PendingFrom(s.broker, 0) == First(n) + PendingFrom(s.broker, n + 1);
    forall i | 0 <= i < n ensures First(n)[i] in Idle(cfg, s) {
      assert First(n)[i] == i + 1;
    }
    ClaimedPrefix(First(n), PendingFrom(s.broker, n + 1), Idle(cfg, s), 10 * n);
  }

  /** A claim from 0-0 takes nothing, and starts at 0-0 again, when the few pending entries are not idle. */
  lemma ClaimsNothing(cfg: Config, s: State, c: Consumer, time: int)
    requires Since(s.broker, s.broker.delivered, time) && s.now - time < cfg.idle
    requires c.cursor == 0 && cfg.batch > 0 && s.broker.delivered <= 10 * cfg.batch
    ensures ClaimReply(cfg, s, c) == [] && NextCursor(cfg, s, c) == 0
  {
    var n := s.broker.delivered;
    PendingStartsWith(s.broker, n, 0);
    assert PendingFrom(s.broker, 0) == First(n) + [] == First(n);
    forall i | 0 <= i < n ensures First(n)[i] !in Idle(cfg, s) {
      assert First(n)[i] == i + 1;
    }
    NothingClaimed(First(n), Idle(cfg, s), cfg.batch, 10 * cfg.batch);
  }

  /** Everything is the same but what consumer i does. */
  ghost predicate Elsewhere(s: State, t: State, i: nat) {
    && t.now == s.now && t.broker == s.broker && |t.consumers| == |s.consumers|
    && forall j | 0 <= j < |s.consumers| && j != i :: t.consumers[j] == s.consumers[j]
  }

  /** A resting consumer begins an iteration, and claims nothing. */
  lemma EmptyClaim(cfg: Config, z: State, s: State, i: nat, time: int) returns (t: State)
    requires Accepted(cfg) && Reaches(cfg, z, s) && i < |s.consumers| && Resting(s.consumers[i])
    requires Since(s.broker, s.broker.delivered, time) && s.now - time < cfg.idle
    requires s.broker.delivered <= 10 * cfg.batch
    ensures Reaches(cfg, z, t) && Elsewhere(s, t, i)
    ensures var c := s.consumers[i];
      t.consumers[i] == c.(pc := Reading, base := |c.hs|, sent := s.now, arrival := s.now)
  {
    t := Then(cfg, z, s, On(i, Loop), false);
    ClaimsNothing(cfg, t, t.consumers[i], time);
    t := Then(cfg, z, t, On(i, Claim([], true)), false);
    t := Then(cfg, z, t, On(i, Arrive), false);
    assert t.broker.pending == s.broker.pending;
  }

  /** A resting consumer begins an iteration, and claims the first batch, which is idle. */
  lemma ClaimFirst(cfg: Config, z: State, s: State, i: nat, time: int) returns (t: State)
    requires Reaches(cfg, z, s) && i < |s.consumers|
    requires var c := s.consumers[i];
      c.alive && !c.ctxDone && c.pc.Testing? && c.cursor == 0 && Free(c)
    requires Since(s.broker, cfg.batch, time) && s.now - time >= cfg.idle && cfg.batch <= s.broker.delivered
    ensures Reaches(cfg, z, t) && t.now == s.now && |t.consumers| == |s.consumers|
    ensures forall j | 0 <= j < |s.consumers| && j != i :: t.consumers[j] == s.consumers[j]
    ensures t.broker == Deliver(s.broker, First(cfg.batch), i, s.now)
    ensures var c := s.consumers[i];
      t.consumers[i] ==
        c.(pc := Reading, cursor := NextCursor(cfg, s, c), base := |c.hs|, queue := First(cfg.batch),
           sent := s.now, arrived := false, arrival := s.now, admitted := false)
  {
    ClaimsFirst(cfg, s, s.consumers[i], time);
    t := Then(cfg, z, s, On(i, Loop), false);
    assert ClaimReply(cfg, t, t.consumers[i]) == First(cfg.batch);
    t := Then(cfg, z, t, On(i, Claim(First(cfg.batch), true)), false);
  }

  lemma FirstIsSince(b: Broker, i: nat, n: nat, now: int)
    requires 0 !in b.pending
    ensures Since(Deliver(b, First(n), i, now), n, now)
  {
    NewIdsAre(0, n);
  }

  // ----- a consumer whose handlers fail at once

  ghost predicate Serves(c: Consumer) {
    c.alive && !c.ctxDone && c.arrived && !c.admitted && AllDone(c.hs)
  }

  /** Consumer i starts the head of its queue. */
  lemma StartHead(cfg: Config, z: State, s: State, i: nat, quiet: bool) returns (t: State)
    requires Accepted(cfg) && Goes(cfg, z, s, quiet) && i < |s.consumers|
    requires Serves(s.consumers[i]) && s.consumers[i].queue != []
    ensures Goes(cfg, z, t, quiet) && Elsewhere(s, t, i) && t.consumers[i] == Started(s.consumers[i], s.now)
  {
    AllDoneIsInactive(s.consumers[i].hs);
    t := Then(cfg, z, s, On(i, Check), quiet);
    t := Then(cfg, z, t, On(i, Start), quiet);
  }

  /** Consumer i handles the head of its queue, without success. */
  lemma ServeOne(cfg: Config, z: State, s: State, i: nat, quiet: bool) returns (t: State)
    requires Accepted(cfg) && Goes(cfg, z, s, quiet) && i < |s.consumers|
    requires Serves(s.consumers[i]) && s.consumers[i].queue != []
    ensures Goes(cfg, z, t, quiet) && Elsewhere(s, t, i) && Serves(t.consumers[i])
    ensures t.consumers[i] == s.consumers[i].(queue := s.consumers[i].queue[1..], hs := t.consumers[i].hs)
  {
    var c := s.consumers[i];
    var h := Handling(c.queue[0], c.sent, s.now, Running);
    t := StartHead(cfg, z, s, i, quiet);
    t := Then(cfg, z, t, On(i, Return(|c.hs|, false)), quiet);
    t := Then(cfg, z, t, On(i, Nack(|c.hs|)), quiet);
    assert t.consumers[i].hs == c.hs + [h.(phase := Done)];
  }

  /** Consumer i handles all of its queue but the last entry, without success. */
  lemma {:induction false} ServeAllButLast(cfg: Config, z: State, s: State, i: nat, quiet: bool) returns (t: State)
    requires Accepted(cfg) && Goes(cfg, z, s, quiet) && i < |s.consumers|
    requires Serves(s.consumers[i]) && s.consumers[i].queue != []
    ensures Goes(cfg, z, t, quiet) && Elsewhere(s, t, i) && Serves(t.consumers[i])
    ensures t.consumers[i] ==
      s.consumers[i].(queue := s.consumers[i].queue[|s.consumers[i].queue| - 1..], hs := t.consumers[i].hs)
    decreases |s.consumers[i].queue|
  {
    if |s.consumers[i].queue| == 1 {
      t := s;
    } else {
      var u := ServeOne(cfg, z, s, i, quiet);
      t := ServeAllButLast(cfg, z, u, i, quiet);
    }
  }

  /** Consumer i handles all of its queue, without success. */
  lemma ServeAll(cfg: Config, z: State, s: State, i: nat, quiet: bool) returns (t: State)
    requires Accepted(cfg) && Goes(cfg, z, s, quiet) && i < |s.consumers|
    requires Serves(s.consumers[i]) && s.consumers[i].queue != []
    ensures Goes(cfg, z, t, quiet) && Elsewhere(s, t, i) && Serves(t.consumers[i])
    ensures t.consumers[i] == s.consumers[i].(queue := [], hs := t.consumers[i].hs)
  {
    t := ServeAllButLast(cfg, z, s, i, quiet);
    t := ServeOne(cfg, z, t, i, quiet);
  }

  lemma {:induction false} AppendMany(cfg: Config, z: State, s: State, n: nat, quiet: bool) returns (t: State)
    requires Goes(cfg, z, s, quiet)
    ensures Goes(cfg, z, t, quiet) && t == s.(broker := s.broker.(appended := s.broker.appended + n))
  {
    if n == 0 {
      t := s;
    } else {
      t := AppendMany(cfg, z, s, n - 1, quiet);
      t := Then(cfg, z, t, Append, quiet);
    }
  }

  /** Consumer i is about to read, and is answered with a number of entries added just now. */
  lemma ReadNew(cfg: Config, z: State, s: State, i: nat, n: nat, quiet: bool) returns (t: State)
    requires Goes(cfg, z, s, quiet) && 0 < n <= cfg.slots && s.broker.appended == s.broker.delivered
    requires i < |s.consumers| && s.consumers[i].alive && s.consumers[i].pc.Reading? && Free(s.consumers[i])
    ensures Goes(cfg, z, t, quiet) && t.now == s.now && |t.consumers| == |s.consumers|
    ensures forall j | 0 <= j < |s.consumers| && j != i :: t.consumers[j] == s.consumers[j]
    ensures var c, ids := s.consumers[i], NewIds(s.broker.delivered, n);
      t.consumers[i] ==
        c.(pc := Testing, base := |c.hs|, queue := ids, sent := s.now, arrival := s.now, admitted := false)
    ensures var b := s.broker;
      t.broker ==
        Deliver(b, NewIds(b.delivered, n), i, s.now).(appended := b.appended + n, delivered := b.delivered + n)
  {
    t := AppendMany(cfg, z, s, n, quiet);
    t := Then(cfg, z, t, On(i, Read(n, true)), quiet);
    t := Then(cfg, z, t, On(i, Arrive), quiet);
  }
}
