/**
 * The claims of one consumer of the group protocol are a sweep of the pending list: every run of RedisGroup is, for
 * each of its consumers, a sequence of rounds in the sense of RedisSweep, whatever the other consumers do.
 */
module RedisGroupSweep {
  import opened Sequences
  import opened RedisGroup
  import Receive = RedisGroupReceive
  import Sweep = RedisSweep

  /** The pending list in order, with the claim cursor of consumer i. */
  function View(s: State, i: nat): Sweep.State
    requires i < |s.consumers|
  {
    Sweep.State(PendingFrom(s.broker, 0), s.consumers[i].cursor, s.broker.delivered)
  }

  lemma ViewIsValid(s: State, i: nat)
    requires Conserved(s.broker) && i < |s.consumers|
    ensures Sweep.Valid(View(s, i))
  {
    PendingInOrder(s.broker, 0);
    var p := View(s, i).pending;
    forall k | 0 <= k < |p| ensures 0 < p[k] <= s.broker.delivered {
      PendingHas(s.broker, 0, p[k]);
    }
  }

  lemma {:induction false} FromOfPending(b: Broker, a: Id, id: Id)
    requires a <= id
    ensures Sweep.From(PendingFrom(b, a), id) == PendingFrom(b, id)
    decreases id - a
  {
    var p := PendingFrom(b, a);
    if a == id {
      if p != [] {
        PendingHas(b, a, p[0]);
      }
    } else if a <= b.delivered {
      FromOfPending(b, a + 1, id);
      var rest := PendingFrom(b, a + 1);
      if a in b.pending {
        assert p == [a] + rest && p[1..] == rest;
      } else {
        assert p == rest;
      }
    }
  }

  // ----- what a step does to the pending list

  /** The entries a step delivers to the group for the first time. */
  function NewlyDelivered(s: State, e: Event): seq<Id> {
    if e.On? && e.a.Read? then NewIds(s.broker.delivered, e.a.n) else []
  }

  /** The entries a step removes from the pending list. */
  function NewlyAcked(cfg: Config, s: State, e: Event): set<Id>
    requires Enabled(cfg, s, e)
  {
    if e.On? && e.a.Ack? && e.a.applied then {s.consumers[e.c].hs[e.a.k].id} * s.broker.pending.Keys else {}
  }

  lemma KeysAfter(cfg: Config, s: State, e: Event, x: Id)
    requires GroupInv(s) && Enabled(cfg, s, e)
    ensures x in Apply(cfg, s, e).broker.pending <==>
            (x in s.broker.pending || x in NewlyDelivered(s, e)) && x !in NewlyAcked(cfg, s, e)
    ensures Sweep.New(s.broker.delivered, NewlyDelivered(s, e))
    ensures Apply(cfg, s, e).broker.delivered == Receive.Latest(s.broker.delivered, NewlyDelivered(s, e))
    ensures x in NewlyAcked(cfg, s, e) ==> x <= s.broker.delivered
  {
    if e.On? {
      match e.a
      case Claim(ids, _) => ReplyIsClaimable(cfg, s, s.consumers[e.c]);
      case Read(n, _) => NewIdsAre(s.broker.delivered, n);
      case _ =>
    }
  }

  lemma PendingAfter(cfg: Config, s: State, e: Event)
    requires GroupInv(s) && Enabled(cfg, s, e)
    ensures PendingFrom(Apply(cfg, s, e).broker, 0) ==
            Sweep.Keep(PendingFrom(s.broker, 0) + NewlyDelivered(s, e), NewlyAcked(cfg, s, e))
  {
    var b, t, more, gone := s.broker, Apply(cfg, s, e).broker, NewlyDelivered(s, e), NewlyAcked(cfg, s, e);
    StepKeepsGroupInv(cfg, s, e);
    PendingInOrder(b, 0);
    PendingInOrder(t, 0);
    var all := PendingFrom(b, 0) + more;
    KeysAfter(cfg, s, e, 0);
    assert Increasing(all) by {
      forall k | 0 <= k < |PendingFrom(b, 0)| ensures PendingFrom(b, 0)[k] <= b.delivered {
        PendingHas(b, 0, PendingFrom(b, 0)[k]);
      }
    }
    Sweep.KeepIsIncreasing(all, gone);
    forall x: Id ensures x in PendingFrom(t, 0) <==> x in Sweep.Keep(all, gone) {
      KeysAfter(cfg, s, e, x);
      Sweep.KeepMembers(all, gone, x);
      PendingHas(b, 0, x);
      PendingHas(t, 0, x);
      assert x in all <==> x in PendingFrom(b, 0) || x in more;
    }
    IncreasingIsUnique(PendingFrom(t, 0), Sweep.Keep(all, gone));
  }

  // ----- the rounds of a run

  /** A claim of consumer i whose reply it gets. */
  predicate Claims(e: Event, i: nat) {
    e.On? && e.c == i && e.a.Claim? && e.a.replied
  }

  function OpenedRound(cfg: Config, s: State): Sweep.Round {
    Sweep.Round(Idle(cfg, s), {}, [])
  }

  function RoundsAfter(cfg: Config, s: State, e: Event, i: nat, rs: seq<Sweep.Round>): seq<Sweep.Round>
    requires Enabled(cfg, s, e)
  {
    if Claims(e, i) then rs + [OpenedRound(cfg, s)]
    else if rs == [] then []
    else rs[..|rs| - 1] + [Receive.Longer(rs[|rs| - 1], NewlyDelivered(s, e), NewlyAcked(cfg, s, e))]
  }

  /** The rounds of a run: one for each claim of consumer i, with what happens from there to its next claim. */
  function Rounds(cfg: Config, s: State, es: seq<Event>, i: nat, rs: seq<Sweep.Round>): seq<Sweep.Round>
    requires Legal(cfg, s, es)
    decreases es
  {
    if es == [] then rs else Rounds(cfg, Apply(cfg, s, es[0]), es[1..], i, RoundsAfter(cfg, s, es[0], i, rs))
  }

  function ReplyOf(e: Event, i: nat): seq<seq<Id>> {
    if Claims(e, i) then [e.a.ids] else []
  }

  /** What the claims of consumer i take in a run. */
  function Replies(es: seq<Event>, i: nat): seq<seq<Id>> {
    if es == [] then [] else ReplyOf(es[0], i) + Replies(es[1..], i)
  }

  /** So far the rounds are a sweep, in which the claims took what they replied. */
  ghost predicate Sweeps(cfg: Config, s: State, i: nat, first: Sweep.State, rs: seq<Sweep.Round>, got: seq<seq<Id>>) {
    && i < |s.consumers| && |got| == |rs|
    && View(s, i) == Sweep.After(cfg.batch, first, rs)
    && (rs != [] ==> Receive.NoneAfter(rs[|rs| - 1].removed, s.broker.delivered))
    && (forall k | 0 <= k < |rs| :: Sweep.Valid(Sweep.After(cfg.batch, first, rs[..k])))
    && (forall k: nat, x | k < |rs| :: x in got[k] <==> Receive.ClaimedIn(cfg.batch, first, rs, k, x))
  }

  /** A claim begins a round, and takes what the sweep says. */
  lemma ClaimBeginsRound(cfg: Config, s: State, e: Event, i: nat)
    requires GroupInv(s) && i < |s.consumers| && Enabled(cfg, s, e) && Claims(e, i)
    ensures View(Apply(cfg, s, e), i) == Sweep.Next(cfg.batch, View(s, i), OpenedRound(cfg, s))
    ensures forall x :: x in e.a.ids <==> Sweep.Claims(cfg.batch, View(s, i), OpenedRound(cfg, s), x)
  {
    var v, r := View(s, i), OpenedRound(cfg, s);
    FromOfPending(s.broker, 0, v.cursor);
    PendingAfter(cfg, s, e);
    forall x: Id ensures x in e.a.ids <==> Sweep.Claims(cfg.batch, v, r, x) {
      Receive.ReplyIsClaim(cfg.batch, v, r, x);
    }
  }

  /** Any other step goes on with the round. */
  lemma OtherStepsContinue(cfg: Config, s: State, e: Event, i: nat)
    requires GroupInv(s) && i < |s.consumers| && Enabled(cfg, s, e) && !Claims(e, i)
    ensures var t := Apply(cfg, s, e);
      View(t, i) == Sweep.State(Sweep.Keep(View(s, i).pending + NewlyDelivered(s, e), NewlyAcked(cfg, s, e)),
                                View(s, i).cursor, Receive.Latest(s.broker.delivered, NewlyDelivered(s, e)))
  {
    PendingAfter(cfg, s, e);
    KeysAfter(cfg, s, e, 0);
  }

  lemma ClaimSweeps(
    cfg: Config, s: State, e: Event, i: nat, first: Sweep.State, rs: seq<Sweep.Round>, got: seq<seq<Id>>)
    requires GroupInv(s) && Enabled(cfg, s, e) && Claims(e, i) && Sweeps(cfg, s, i, first, rs, got)
    ensures Sweeps(cfg, Apply(cfg, s, e), i, first, RoundsAfter(cfg, s, e, i, rs), got + [e.a.ids])
  {
    var qs := rs + [OpenedRound(cfg, s)];
    ClaimBeginsRound(cfg, s, e, i);
    ViewIsValid(s, i);
    assert qs[..|rs|] == rs;
    assert forall k | 0 <= k <= |rs| :: qs[..k] == rs[..k];
    forall k: nat, x | k < |qs|
      ensures x in (got + [e.a.ids])[k] <==> Receive.ClaimedIn(cfg.batch, first, qs, k, x)
    {
      if k < |rs| {
        assert Receive.ClaimedIn(cfg.batch, first, qs, k, x) <==> Receive.ClaimedIn(cfg.batch, first, rs, k, x);
      }
    }
  }

  lemma OtherSweeps(
    cfg: Config, s: State, e: Event, i: nat, first: Sweep.State, rs: seq<Sweep.Round>, got: seq<seq<Id>>)
    requires GroupInv(s) && Enabled(cfg, s, e) && !Claims(e, i) && Sweeps(cfg, s, i, first, rs, got) && rs != []
    ensures Sweeps(cfg, Apply(cfg, s, e), i, first, RoundsAfter(cfg, s, e, i, rs), got)
  {
    var more, gone, n := NewlyDelivered(s, e), NewlyAcked(cfg, s, e), |rs| - 1;
    var qs := RoundsAfter(cfg, s, e, i, rs);
    OtherStepsContinue(cfg, s, e, i);
    KeysAfter(cfg, s, e, 0);
    Receive.LongerLastRound(cfg.batch, first, rs, more, gone);
    forall x | x in qs[n].removed ensures x <= Apply(cfg, s, e).broker.delivered {
      KeysAfter(cfg, s, e, x);
    }
    assert forall k: nat, x | k < |rs| ::
      Receive.ClaimedIn(cfg.batch, first, qs, k, x) <==> Receive.ClaimedIn(cfg.batch, first, rs, k, x);
  }

  lemma StepSweeps(
    cfg: Config, s: State, e: Event, i: nat, first: Sweep.State, rs: seq<Sweep.Round>, got: seq<seq<Id>>)
    requires GroupInv(s) && Enabled(cfg, s, e) && Sweeps(cfg, s, i, first, rs, got)
    requires rs == [] ==> Claims(e, i)
    ensures RoundsAfter(cfg, s, e, i, rs) != []
    ensures Sweeps(cfg, Apply(cfg, s, e), i, first, RoundsAfter(cfg, s, e, i, rs), got + ReplyOf(e, i))
  {
    if Claims(e, i) {
      ClaimSweeps(cfg, s, e, i, first, rs, got);
    } else {
      OtherSweeps(cfg, s, e, i, first, rs, got);
      assert got + [] == got;
    }
  }

  /** A run that begins with a claim of consumer i is a sweep, as the claims of consumer i go. */
  lemma {:induction false} RunSweeps(
    cfg: Config, s: State, es: seq<Event>, i: nat, first: Sweep.State, rs: seq<Sweep.Round>, got: seq<seq<Id>>)
    requires GroupInv(s) && Legal(cfg, s, es) && Sweeps(cfg, s, i, first, rs, got)
    requires rs == [] && es != [] ==> Claims(es[0], i)
    ensures Sweeps(cfg, Exec(cfg, s, es), i, first, Rounds(cfg, s, es, i, rs), got + Replies(es, i))
    decreases es
  {
    if es == [] {
      assert got + [] == got;
    } else {
      StepKeepsGroupInv(cfg, s, es[0]);
      StepSweeps(cfg, s, es[0], i, first, rs, got);
      RunSweeps(cfg, Apply(cfg, s, es[0]), es[1..], i, first,
                RoundsAfter(cfg, s, es[0], i, rs), got + ReplyOf(es[0], i));
      ConcatAssociates(got, ReplyOf(es[0], i), Replies(es[1..], i));
    }
  }

  /**
   * Sweep progress in the group protocol: in every run, whatever the other consumers do, an entry that stays pending
   * and is idle at each claim of consumer i, for two claims more than the pending list is long, is in the reply of one
   * of them, if fewer entries are delivered to the group from one claim to the next than a claim may take.
   */
  lemma WaitingEntryIsClaimed(cfg: Config, s: State, es: seq<Event>, i: nat, begin: nat, x: Id, most: nat)
    requires GroupInv(s) && i < |s.consumers| && Legal(cfg, s, es) && es != [] && Claims(es[0], i)
    requires var rs, first := Rounds(cfg, s, es, i, []), View(s, i);
      && most < cfg.batch && Receive.Waits(cfg.batch, first, rs, begin, x, most)
      && |rs| - begin > |Sweep.After(cfg.batch, first, rs[..begin]).pending| + 1
    ensures exists k :: begin <= k < |Replies(es, i)| && x in Replies(es, i)[k]
  {
    var rs, first := Rounds(cfg, s, es, i, []), View(s, i);
    RunSweeps(cfg, s, es, i, first, [], []);
    assert [] + Replies(es, i) == Replies(es, i);
    Receive.WaitingIsClaimed(cfg.batch, first, rs, begin, x, most);
    var k :| begin <= k < |rs| && Receive.ClaimedIn(cfg.batch, first, rs, k, x);
    assert x in Replies(es, i)[k];
  }
}
