/**
 * The read loop of the Redis subscriber in consumer group mode (redis/subscriber.go), which claims idle entries and
 * reads new ones in turn, and dispatches both.
 *
 * The pending list of the group belongs to all consumers, so it may change between any two steps of this one. The
 * rounds record, for each claim of this loop, what was idle then and what changed since, so that they are a sweep in
 * the sense of RedisSweep. As in RedisCursor, a budget of reads ends in the loop giving up.
 */
module RedisGroupReceive {
  import opened Sequences
  import opened RedisSweep

  /** The reply of a claim holds exactly the entries that it claims, no more than asked for. */
  lemma ReplyIsClaim(count: nat, s: State, r: Round, x: Id)
    ensures var ids := Claimed(From(s.pending, s.cursor), r.idle, count, 10 * count);
      |ids| <= count && (x in ids <==> Claims(count, s, r, x))
  {
    var p, k := From(s.pending, s.cursor), ScanLength(count, s, r);
    ClaimedAreScanned(p, r.idle, count, 10 * count, x);
    assert x in p[..k] <==> exists i :: 0 <= i < k && i < |p| && p[i] == x;
  }

  predicate ClaimedIn(count: nat, s: State, rs: seq<Round>, i: nat, x: Id) {
    i < |rs| && Claims(count, After(count, s, rs[..i]), rs[i], x)
  }

  predicate LeavesIn(count: nat, s: State, rs: seq<Round>, i: nat, x: Id, most: nat) {
    i < |rs| && Leaves(After(count, s, rs[..i]), rs[i], x, most)
  }

  /** From a round on, x is pending and idle, and at most so many entries are delivered in each round. */
  predicate Waits(count: nat, s: State, rs: seq<Round>, begin: nat, x: Id, most: nat) {
    begin <= |rs| && x in After(count, s, rs[..begin]).pending &&
    forall i | begin <= i < |rs| :: LeavesIn(count, s, rs, i, x, most)
  }

  lemma {:induction false} UnclaimedStarves(count: nat, s: State, rs: seq<Round>, begin: nat, x: Id, most: nat)
    requires begin <= |rs|
    requires forall i | begin <= i < |rs| :: LeavesIn(count, s, rs, i, x, most) && !ClaimedIn(count, s, rs, i, x)
    ensures Starves(count, After(count, s, rs[..begin]), rs[begin..], x, most)
    decreases |rs| - begin
  {
    if begin < |rs| {
      assert LeavesIn(count, s, rs, begin, x, most) && !ClaimedIn(count, s, rs, begin, x);
      UnclaimedStarves(count, s, rs, begin + 1, x, most);
      assert rs[..begin + 1][..begin] == rs[..begin];
      assert rs[begin..][1..] == rs[begin + 1..];
    }
  }

  /** An entry that waits for two rounds more than the pending list is long is claimed in one of them. */
  lemma WaitingIsClaimed(count: nat, s: State, rs: seq<Round>, begin: nat, x: Id, most: nat)
    requires most < count && Waits(count, s, rs, begin, x, most) && Valid(After(count, s, rs[..begin]))
    requires |rs| - begin > |After(count, s, rs[..begin]).pending| + 1
    ensures exists i :: begin <= i < |rs| && ClaimedIn(count, s, rs, i, x)
  {
    if forall i | begin <= i < |rs| :: !ClaimedIn(count, s, rs, i, x) {
      UnclaimedStarves(count, s, rs, begin, x, most);
      SweepReaches(count, After(count, s, rs[..begin]), rs[begin..], x, most);
    }
  }

  // ----- what happens between two claims

  lemma {:induction false} KeepKeep(p: seq<Id>, removed: set<Id>, gone: set<Id>)
    ensures Keep(Keep(p, removed), gone) == Keep(p, removed + gone)
  {
    if p != [] {
      KeepKeep(p[1..], removed, gone);
      KeepConcat([p[0]], p[1..], removed + gone);
      KeepConcat([p[0]], p[1..], removed);
      KeepConcat(Keep([p[0]], removed), Keep(p[1..], removed), gone);
      assert p == [p[0]] + p[1..];
    }
  }

  /** What is delivered and acked in several steps can be delivered first and acked then. */
  lemma KeepInSteps(p: seq<Id>, removed: set<Id>, more: seq<Id>, gone: set<Id>)
    requires forall i | 0 <= i < |more| :: more[i] !in removed
    ensures Keep(Keep(p, removed) + more, gone) == Keep(p + more, removed + gone)
  {
    KeepAllOrNone(more, removed);
    KeepConcat(p, more, removed);
    KeepKeep(p + more, removed, gone);
  }

  predicate NoneAfter(ids: set<Id>, last: Id) {
    forall y | y in ids :: y <= last
  }

  function Latest(last: Id, more: seq<Id>): Id {
    if more == [] then last else more[|more| - 1]
  }

  lemma ChangeIsValid(s: State, more: seq<Id>, gone: set<Id>)
    requires Valid(s) && New(s.last, more)
    ensures Valid(State(Keep(s.pending + more, gone), s.cursor, Latest(s.last, more)))
  {
    var all := s.pending + more;
    KeepIsIncreasing(all, gone);
    var kept := Keep(all, gone);
    forall i | 0 <= i < |kept| ensures kept[i] in all {
      KeepMembers(all, gone, kept[i]);
    }
  }

  /** The same round, with more that happened in it. */
  function Longer(r: Round, more: seq<Id>, gone: set<Id>): Round {
    Round(r.idle, r.removed + gone, r.added + more)
  }

  lemma LongerRound(count: nat, s: State, r: Round, more: seq<Id>, gone: set<Id>)
    requires var t := Next(count, s, r); New(t.last, more) && NoneAfter(r.removed, t.last)
    ensures var t := Next(count, s, r);
      Next(count, s, Longer(r, more, gone)) == State(Keep(t.pending + more, gone), t.cursor, Latest(t.last, more))
  {
    KeepInSteps(s.pending + r.added, r.removed, more, gone);
    ConcatAssociates(s.pending, r.added, more);
  }

  /** What was claimed in a round stays the same when more happens in it. */
  lemma LongerLastRound(count: nat, s: State, rs: seq<Round>, more: seq<Id>, gone: set<Id>)
    requires rs != [] && New(After(count, s, rs).last, more)
    requires NoneAfter(rs[|rs| - 1].removed, After(count, s, rs).last)
    ensures var t, longer := After(count, s, rs), rs[..|rs| - 1] + [Longer(rs[|rs| - 1], more, gone)];
      && After(count, s, longer) == State(Keep(t.pending + more, gone), t.cursor, Latest(t.last, more))
      && (forall i | 0 <= i < |rs| :: longer[..i] == rs[..i])
      && (forall i: nat, x | ClaimedIn(count, s, longer, i, x) :: ClaimedIn(count, s, rs, i, x))
  {
    var n := |rs| - 1;
    var longer := rs[..n] + [Longer(rs[n], more, gone)];
    LongerRound(count, After(count, s, rs[..n]), rs[n], more, gone);
    assert longer[..n] == rs[..n];
    assert forall i | 0 <= i < |rs| :: longer[..i] == rs[..i];
  }

  datatype ClaimResult = ClaimFailed | Reply(ids: seq<Id>, next: Id)

  datatype ReadResult = TimedOut | ReadFailed | Entries(ids: seq<Id>)

  /** The group as one consumer sees it, and what this consumer does. */
  class Group {
    var pending: seq<Id>
    var last: Id                      // the last ID delivered to the group
    var ctxDone: bool
    var budget: nat
    var batches: seq<seq<Id>>         // the entries of each reply to this consumer
    var dispatched: seq<Id>           // the entries handed to Dispatch, in order
    ghost var failed: bool            // a command failed
    ghost var first: State            // the sweep at the first claim
    ghost var rounds: seq<Round>      // one for each claim; the last one is still going on

    /** The rounds lead to the pending list as it is, and what was claimed in them is in the replies. */
    ghost predicate Swept(count: nat, cursor: Id)
      reads this
    {
      && Valid(State(pending, cursor, last))
      && (rounds != [] ==>
        && State(pending, cursor, last) == After(count, first, rounds)
        && NoneAfter(rounds[|rounds| - 1].removed, last))
      && (forall i | 0 <= i < |rounds| :: Valid(After(count, first, rounds[..i])))
      && (forall i: nat, x | ClaimedIn(count, first, rounds, i, x) :: x in Flatten(batches))
    }

    /** Entries are delivered and acked. */
    method Change(more: seq<Id>, gone: set<Id>, ghost count: nat, ghost cursor: Id)
      requires Swept(count, cursor) && New(last, more) && NoneAfter(gone, Latest(last, more))
      modifies `pending, `last, `rounds
      ensures Swept(count, cursor) && |rounds| == |old(rounds)|
      ensures pending == Keep(old(pending) + more, gone) && last == Latest(old(last), more)
    {
      ChangeIsValid(State(pending, cursor, last), more, gone);
      if rounds != [] {
        LongerLastRound(count, first, rounds, more, gone);
        rounds := rounds[..|rounds| - 1] + [Longer(rounds[|rounds| - 1], more, gone)];
      }
      pending, last := Keep(pending + more, gone), Latest(last, more);
    }

    /** The other consumers, and ctx. */
    method Interfere(ghost count: nat, ghost cursor: Id)
      requires Swept(count, cursor)
      modifies `pending, `last, `rounds, `ctxDone
      ensures Swept(count, cursor) && |rounds| == |old(rounds)|
      ensures old(last) <= last && (old(ctxDone) ==> ctxDone)
    {
      var more: seq<Id>, gone: set<Id>, done: bool := *, *, *;
      ctxDone := ctxDone || done;
      if New(last, more) && NoneAfter(gone, Latest(last, more)) {
        Change(more, gone, count, cursor);
      }
    }

    /** XAUTOCLAIM from where the last claim stopped. */
    method AutoClaim(start: Id, count: nat) returns (r: ClaimResult)
      requires Swept(count, start)
      modifies `pending, `last, `rounds, `first, `ctxDone, `batches, `failed
      ensures failed == (old(failed) || r.ClaimFailed?)
      ensures r.ClaimFailed? ==> batches == old(batches)
      ensures r.Reply? ==> Swept(count, r.next) && batches == old(batches) + [r.ids] && |r.ids| <= count
      ensures r.Reply? ==> |rounds| == |old(rounds)| + 1
      ensures first == if old(rounds) == [] && r.Reply? then first else old(first)
      ensures r.Reply? && old(rounds) == [] ==> first.cursor == start
      ensures r.ClaimFailed? ==> Swept(count, start) && |rounds| == |old(rounds)|
    {
      Interfere(count, start);
      var fails: bool, idle: set<Id> := *, *;
      if fails {
        failed := true;
        return ClaimFailed;
      }
      var s, round := State(pending, start, last), Round(idle, {}, []);
      var ids := Claimed(From(pending, start), idle, count, 10 * count);
      var next := Next(count, s, round).cursor;
      r := Reply(ids, next);
      OpenRound(count, s, round);
      ReplyIsClaim(count, s, round, 0);
      ghost var before := rounds;
      if rounds == [] {
        first := s;
      }
      rounds := rounds + [round];
      FlattenAppend(batches, ids);
      batches := batches + [ids];
      assert rounds[..|before|] == before;
      assert forall i | 0 <= i <= |before| :: rounds[..i] == before[..i];
      forall i: nat, x | ClaimedIn(count, first, rounds, i, x) ensures x in Flatten(batches) {
        if i < |before| {
          assert ClaimedIn(count, first, before, i, x);
        } else {
          ReplyIsClaim(count, s, round, x);
        }
      }
    }

    /** Right after a claim nothing has changed but the cursor. */
    lemma OpenRound(count: nat, s: State, r: Round)
      requires Valid(s) && r.removed == {} && r.added == []
      ensures Next(count, s, r).pending == s.pending && Next(count, s, r).last == s.last && Valid(Next(count, s, r))
    {
      assert s.pending + r.added == s.pending;
      KeepAllOrNone(s.pending, {});
    }

    /** XREADGROUP with ">": entries that were not delivered to the group before, count of them at most. */
    method ReadGroup(count: nat, ghost batchSize: nat, ghost cursor: Id) returns (r: ReadResult)
      requires Swept(batchSize, cursor)
      modifies `pending, `last, `rounds, `ctxDone, `batches, `budget, `failed
      ensures Swept(batchSize, cursor) && |rounds| == |old(rounds)| && failed == (old(failed) || r.ReadFailed?)
      ensures r.ReadFailed? || budget < old(budget)
      ensures r.Entries? ==> batches == old(batches) + [r.ids] && 0 < |r.ids| <= count && New(old(last), r.ids)
      ensures !r.Entries? ==> batches == old(batches)
    {
      Interfere(batchSize, cursor);
      var fails: bool, ids: seq<Id> := *, *;
      if fails || budget == 0 {
        failed := true;
        return ReadFailed;
      }
      budget := budget - 1;
      if 0 < |ids| <= count && New(last, ids) {
        Change(ids, {}, batchSize, cursor);
        FlattenAppend(batches, ids);
        batches := batches + [ids];
        r := Entries(ids);
      } else {
        r := TimedOut;
      }
    }

    /** The entries of a reply are dispatched one by one. */
    method DispatchAll(ids: seq<Id>, ghost count: nat, ghost cursor: Id)
      requires Swept(count, cursor)
      modifies `pending, `last, `rounds, `ctxDone, `dispatched
      ensures Swept(count, cursor) && |rounds| == |old(rounds)|
      ensures dispatched == old(dispatched) + ids
    {
      var i := 0;
      while i < |ids|
        invariant i <= |ids| && Swept(count, cursor) && |rounds| == |old(rounds)|
        invariant dispatched == old(dispatched) + ids[..i]
      {
        dispatched := dispatched + [ids[i]];
        i := i + 1;
        Interfere(count, cursor);
      }
    }

    /** What every reply holds was dispatched, in order, and the claims were made one after the other from 0-0 on. */
    ghost predicate InStep(count: nat, limit: nat, cursor: Id)
      reads this
    {
      && Swept(count, cursor) && dispatched == Flatten(batches)
      && (if rounds == [] then cursor == 0 else first.cursor == 0)
      && forall b | b in batches :: |b| <= limit
    }

    /** Who waited two iterations more than the list was long was dispatched, if a claim may take more than came in. */
    ghost predicate WaitersAreDispatched(count: nat)
      reads this
    {
      forall begin: nat, x, most: nat | most < count && Waits(count, first, rounds, begin, x, most) &&
        |rounds| - begin > |After(count, first, rounds[..begin]).pending| + 1 :: x in dispatched
    }

    lemma SweptWaitersAreDispatched(count: nat, cursor: Id)
      requires Swept(count, cursor) && dispatched == Flatten(batches)
      ensures WaitersAreDispatched(count)
    {
      forall begin: nat, x, most: nat | most < count && Waits(count, first, rounds, begin, x, most) &&
        |rounds| - begin > |After(count, first, rounds[..begin]).pending| + 1
        ensures x in dispatched
      {
        WaitingIsClaimed(count, first, rounds, begin, x, most);
      }
    }

    /** The reply of a claim is dispatched. */
    method ClaimAndDispatch(start: Id, batchSize: nat, ghost limit: nat) returns (ok: bool, next: Id)
      requires InStep(batchSize, limit, start) && batchSize <= limit
      modifies this
      ensures InStep(batchSize, limit, next) && budget == old(budget) && failed == (old(failed) || !ok)
      ensures |rounds| - |old(rounds)| == |batches| - |old(batches)| == if ok then 1 else 0
    {
      ghost var before := batches;
      var claim := AutoClaim(start, batchSize);
      ok, next := claim.Reply?, start;
      if claim.Reply? {
        next := claim.next;
        FlattenAppend(before, claim.ids);
        DispatchAll(claim.ids, batchSize, next);
      }
    }

    /** The reply of a read is dispatched, if there is one. A timeout changes nothing of what this consumer did. */
    method ReadAndDispatch(maxInFlight: nat, ghost batchSize: nat, ghost limit: nat, ghost cursor: Id)
      returns (read: ReadResult)
      requires InStep(batchSize, limit, cursor) && maxInFlight <= limit
      modifies this
      ensures InStep(batchSize, limit, cursor) && |rounds| == |old(rounds)|
      ensures read.ReadFailed? || budget < old(budget)
      ensures failed == (old(failed) || read.ReadFailed?)
      ensures batches == old(batches) + if read.Entries? then [read.ids] else []
      ensures dispatched == old(dispatched) + if read.Entries? then read.ids else []
    {
      ghost var before := batches;
      read := ReadGroup(maxInFlight, batchSize, cursor);
      if read.Entries? {
        FlattenAppend(before, read.ids);
        DispatchAll(read.ids, batchSize, cursor);
      }
    }

    /**
     * receive, in consumer group mode. It ends with an error exactly when a command failed, and otherwise only because
     * ctx is done. What is handed to Dispatch is exactly what the replies hold, in order, and no
     * reply is larger than the larger of the two limits. An entry that stays pending and idle for
     * two iterations more than the pending list was long is dispatched, if fewer entries are delivered
     * per iteration than a claim may take.
     */
    method ReadLoop(maxInFlight: nat, batchSize: nat) returns (ok: bool, ghost cursor: Id)
      requires Valid(State(pending, 0, last)) && batches == [] && dispatched == [] && rounds == [] && !failed
      modifies this
      ensures InStep(batchSize, if batchSize > maxInFlight then batchSize else maxInFlight, cursor)
      ensures |rounds| <= |batches| <= 2 * |rounds|
      ensures WaitersAreDispatched(batchSize)
      ensures (ok <==> !failed) && (ok ==> ctxDone)
    {
      ghost var limit := if batchSize > maxInFlight then batchSize else maxInFlight;
      var claimStart := 0;
      ok := true;
      while ok && !ctxDone
        invariant InStep(batchSize, limit, claimStart)
        invariant |rounds| <= |batches| <= 2 * |rounds| && (ok <==> !failed)
        decreases ok, budget
      {
        ok, claimStart := ClaimAndDispatch(claimStart, batchSize, limit);
        if ok {
          var read := ReadAndDispatch(maxInFlight, batchSize, limit, claimStart);
          ok := !read.ReadFailed?;
        }
      }
      cursor := claimStart;
      SweptWaitersAreDispatched(batchSize, cursor);
    }

    /** Receive, around receive: it returns nil exactly when ctx is done, and otherwise because a command failed. */
    method Receive(maxInFlight: nat, batchSize: nat) returns (isNil: bool, ghost cursor: Id)
      requires Valid(State(pending, 0, last)) && batches == [] && dispatched == [] && rounds == [] && !failed
      modifies this
      ensures InStep(batchSize, if batchSize > maxInFlight then batchSize else maxInFlight, cursor)
      ensures |rounds| <= |batches| <= 2 * |rounds|
      ensures WaitersAreDispatched(batchSize)
      ensures (isNil <==> ctxDone) && (!isNil ==> failed)
    {
      var ok;
      ok, cursor := ReadLoop(maxInFlight, batchSize);
      isNil := ctxDone || ok;
    }
  }
}
