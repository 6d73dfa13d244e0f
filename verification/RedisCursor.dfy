/**
 * Plain mode of the Redis subscriber, without a consumer group (redis/subscriber.go): resolveStartID, and the read
 * loop that moves its own cursor along an append-only stream.
 *
 * A stream ID ms-seq is the number ms * 2^64 + seq, so "0" and "0-0" are 0, and every entry has a greater ID. The
 * stream is not trimmed. As in AmqpConsume, a budget of reads ends in ctx being done.
 */
module RedisCursor {
  import opened Wrappers
  import opened Sequences

  type Id = nat

  /** The entries of a stream after an ID, in order. */
  function After(log: seq<Id>, id: Id): seq<Id> {
    if log == [] then [] else (if log[0] > id then [log[0]] else []) + After(log[1..], id)
  }

  lemma {:induction false} AfterAppend(log: seq<Id>, more: seq<Id>, id: Id)
    ensures After(log + more, id) == After(log, id) + After(more, id)
  {
    if log == [] {
      assert log + more == more;
    } else {
      assert (log + more)[1..] == log[1..] + more;
      AfterAppend(log[1..], more, id);
    }
  }

  lemma {:induction false} AfterAll(log: seq<Id>, id: Id)
    requires forall i | 0 <= i < |log| :: log[i] > id
    ensures After(log, id) == log
  {
    if log != [] {
      AfterAll(log[1..], id);
    }
  }

  lemma {:induction false} AfterNone(log: seq<Id>, id: Id)
    requires forall i | 0 <= i < |log| :: log[i] <= id
    ensures After(log, id) == []
  {
    if log != [] {
      AfterNone(log[1..], id);
    }
  }

  /** Moving past the first entry after an ID leaves the rest of the entries after it. */
  lemma {:induction false} AfterNext(log: seq<Id>, id: Id)
    requires Increasing(log) && After(log, id) != []
    ensures After(log, id)[0] in log && After(log, id)[0] > id
    ensures After(log, After(log, id)[0]) == After(log, id)[1..]
  {
    if log[0] > id {
      AfterAll(log[1..], id);
      AfterAll(log[1..], log[0]);
    } else {
      AfterNext(log[1..], id);
    }
  }

  /** What was dispatched so far is what lies between the start and the cursor. */
  ghost predicate Contiguous(log: seq<Id>, last: Id, from: Id, cursor: Id, dispatched: seq<Id>) {
    && After(log, from) == dispatched + After(log, cursor)
    && (cursor == from || from < cursor <= last)
  }

  /** log1 is log0 with entries after all that were ever in it. */
  ghost predicate Grown(log0: seq<Id>, last0: Id, log1: seq<Id>, last1: Id) {
    log0 <= log1 && last0 <= last1 && forall i | |log0| <= i < |log1| :: log1[i] > last0
  }

  ghost predicate StartsWith(s: seq<Id>, prefix: seq<Id>) {
    exists more :: s == prefix + more
  }

  lemma AppendKeepsContiguous(
    log: seq<Id>, more: seq<Id>, last: Id, newLast: Id, from: Id, cursor: Id, dispatched: seq<Id>)
    requires Contiguous(log, last, from, cursor, dispatched) && last <= newLast
    requires forall i | 0 <= i < |more| :: more[i] > last
    ensures Contiguous(log + more, newLast, from, cursor, dispatched)
  {
    AfterAppend(log, more, from);
    AfterAppend(log, more, cursor);
    if cursor != from {
      AfterAll(more, from);
      AfterAll(more, cursor);
    }
    ConcatAssociates(dispatched, After(log, cursor), After(more, cursor));
  }

  /** Appending entries adds them after the cursor, and does not come between the start and the cursor. */
  lemma GrowthKeepsContiguous(
    log0: seq<Id>, last0: Id, log1: seq<Id>, last1: Id, from: Id, cursor: Id, dispatched: seq<Id>)
    requires Contiguous(log0, last0, from, cursor, dispatched) && Grown(log0, last0, log1, last1)
    ensures Contiguous(log1, last1, from, cursor, dispatched)
    ensures StartsWith(After(log1, cursor), After(log0, cursor))
  {
    var more := log1[|log0|..];
    assert log1 == log0 + more;
    forall i | 0 <= i < |more| ensures more[i] > last0 {
      assert more[i] == log1[|log0| + i];
    }
    AppendKeepsContiguous(log0, more, last0, last1, from, cursor, dispatched);
    AfterAppend(log0, more, cursor);
  }

  lemma StartsWithTransitive(a: seq<Id>, b: seq<Id>, c: seq<Id>)
    requires StartsWith(a, b) && StartsWith(b, c)
    ensures StartsWith(a, c)
  {
    var x :| a == b + x;
    var y :| b == c + y;
    assert a == c + (y + x);
  }

  lemma StartsWithTail(s: seq<Id>, ids: seq<Id>, i: nat)
    requires i < |ids| && StartsWith(s, ids[i..])
    ensures s != [] && s[0] == ids[i] && StartsWith(s[1..], ids[i + 1..])
  {
    var more :| s == ids[i..] + more;
    assert s[1..] == ids[i + 1..] + more;
  }

  /** Dispatching the first entry after the cursor, and moving the cursor to it. */
  lemma DispatchKeepsContiguous(log: seq<Id>, last: Id, from: Id, cursor: Id, dispatched: seq<Id>)
    requires Increasing(log) && (forall i | 0 <= i < |log| :: log[i] <= last)
    requires Contiguous(log, last, from, cursor, dispatched) && After(log, cursor) != []
    ensures var next := After(log, cursor)[0];
      Contiguous(log, last, from, next, dispatched + [next]) && After(log, next) == After(log, cursor)[1..]
  {
    AfterNext(log, cursor);
    var next := After(log, cursor)[0];
    assert After(log, cursor) == [next] + After(log, next);
    assert dispatched + ([next] + After(log, next)) == (dispatched + [next]) + After(log, next);
  }

  /** WithStartID: StartFromLatest, or the ID of the last entry that was processed. */
  datatype StartPosition = FromLatest | FromId(id: Id)

  datatype InfoResult = NoSuchKey | InfoFailed | LastGenerated(id: Id)

  datatype ReadResult = TimedOut | ReadFailed | Entries(ids: seq<Id>)

  class Stream {
    var present: bool
    var log: seq<Id>
    var lastGenerated: Id
    var ctxDone: bool
    var budget: nat
    var dispatched: seq<Id>    // the entries handed to Dispatch, in order
    var timeouts: nat          // how many reads timed out
    var caughtUp: seq<Id>      // the stream when the last of them did
    ghost var failed: bool     // a command failed

    ghost predicate Valid()
      reads this
    {
      && Increasing(log)
      && (forall i | 0 <= i < |log| :: 0 < log[i] <= lastGenerated)
      && (!present ==> log == [] && lastGenerated == 0)
    }

    /** The stream only grows, by entries after all that were ever in it. */
    twostate predicate Grows()
      reads this
    {
      && old(log) <= log
      && old(lastGenerated) <= lastGenerated
      && (forall i | |old(log)| <= i < |log| :: log[i] > old(lastGenerated))
      && (old(ctxDone) ==> ctxDone)
    }

    /** Producers append entries, and ctx may become done. */
    method Interfere()
      requires Valid()
      modifies `present, `log, `lastGenerated, `ctxDone
      ensures Valid() && Grows()
    {
      var more: seq<Id>, generated: nat, done: bool := *, *, *;
      ctxDone := ctxDone || done;
      if Increasing(more) && lastGenerated <= generated &&
         (forall i | 0 <= i < |more| :: lastGenerated < more[i] <= generated) {
        present, log, lastGenerated := true, log + more, generated;
      }
    }

    /** XINFO STREAM. */
    method Info() returns (r: InfoResult)
      requires Valid()
      modifies `present, `log, `lastGenerated, `ctxDone, `failed
      ensures Valid() && Grows() && failed == (old(failed) || r.InfoFailed?)
      ensures r.NoSuchKey? ==> log == [] && lastGenerated == 0
      ensures r.LastGenerated? ==> r.id == lastGenerated
    {
      Interfere();
      var fails: bool := *;
      failed := failed || fails;
      r := if fails then InfoFailed else if !present then NoSuchKey else LastGenerated(lastGenerated);
    }

    /** XREAD with BLOCK: the first entries after an ID, count of them at most if count is positive. */
    method Read(from: Id, count: int) returns (r: ReadResult)
      requires Valid()
      modifies `present, `log, `lastGenerated, `ctxDone, `budget, `timeouts, `caughtUp, `failed
      ensures Valid() && Grows() && failed == (old(failed) || r.ReadFailed?)
      ensures old(budget) == budget + if r.ReadFailed? then 0 else 1
      ensures timeouts == old(timeouts) + if r.TimedOut? then 1 else 0
      ensures caughtUp == if r.TimedOut? then log else old(caughtUp)
      ensures r.TimedOut? ==> After(log, from) == []
      ensures r.Entries? ==> r.ids != [] && r.ids <= After(log, from) && (count > 0 ==> |r.ids| <= count)
    {
      Interfere();
      var fails: bool := *;
      if fails || budget == 0 {
        failed := true;
        return ReadFailed;
      }
      budget := budget - 1;
      var found := After(log, from);
      r := if found == [] then TimedOut else Entries(if 0 < count < |found| then found[..count] else found);
      if r.TimedOut? {
        timeouts, caughtUp := timeouts + 1, log;
      }
    }

    /** resolveStartID, in plain mode. */
    method ResolveStartID(start: StartPosition) returns (id: Option<Id>)
      requires Valid()
      modifies `present, `log, `lastGenerated, `ctxDone, `failed
      ensures Valid() && Grows() && failed == (old(failed) || id.None?)
      ensures start.FromId? ==> id == Some(start.id)
      ensures start.FromLatest? && id.Some? ==> id.value == lastGenerated && After(log, id.value) == []
    {
      if start.FromId? {
        return Some(start.id);
      }
      var info := Info();
      match info
      case NoSuchKey => id := Some(0);
      case InfoFailed => id := None;
      case LastGenerated(last) => id := Some(last);
      AfterNone(log, lastGenerated);
    }

    /** The batch of a read is dispatched, and moves the cursor along. */
    method DispatchAll(ids: seq<Id>, ghost from: Id, cursor: Id) returns (next: Id)
      requires Valid() && ids <= After(log, cursor) && Contiguous(log, lastGenerated, from, cursor, dispatched)
      modifies `present, `log, `lastGenerated, `ctxDone, `dispatched
      ensures Valid() && old(log) <= log && (old(ctxDone) ==> ctxDone)
      ensures |dispatched| == |old(dispatched)| + |ids| && old(dispatched) <= dispatched
      ensures Contiguous(log, lastGenerated, from, next, dispatched)
    {
      next := cursor;
      var i := 0;
      assert After(log, cursor) == ids[0..] + After(log, cursor)[|ids|..];
      while i < |ids|
        invariant i <= |ids| && Valid() && old(log) <= log && (old(ctxDone) ==> ctxDone)
        invariant |dispatched| == |old(dispatched)| + i && old(dispatched) <= dispatched
        invariant Contiguous(log, lastGenerated, from, next, dispatched)
        invariant StartsWith(After(log, next), ids[i..])
      {
        StartsWithTail(After(log, next), ids, i);
        DispatchKeepsContiguous(log, lastGenerated, from, next, dispatched);
        dispatched := dispatched + [ids[i]];
        next := ids[i];
        i := i + 1;
        ghost var log1, last1 := log, lastGenerated;
        Interfere();
        GrowthKeepsContiguous(log1, last1, log, lastGenerated, from, next, dispatched);
        StartsWithTransitive(After(log, next), After(log1, next), ids[i..]);
      }
    }

    /**
     * One iteration: the entries of a read are dispatched. When a read times out, everything that is in the stream
     * after the start has been dispatched.
     */
    method ReadAndDispatch(cursor: Id, maxInFlight: int, ghost from: Id) returns (r: ReadResult, next: Id)
      requires Valid() && Contiguous(log, lastGenerated, from, cursor, dispatched)
      modifies this
      ensures Valid() && old(log) <= log && Contiguous(log, lastGenerated, from, next, dispatched)
      ensures failed == (old(failed) || r.ReadFailed?)
      ensures old(dispatched) <= dispatched && old(budget) == budget + if r.ReadFailed? then 0 else 1
      ensures timeouts == old(timeouts) + if r.TimedOut? then 1 else 0
      ensures r.TimedOut? ==> dispatched == old(dispatched) == After(log, from) && caughtUp == log
      ensures !r.TimedOut? ==> caughtUp == old(caughtUp)
      ensures |dispatched| == |old(dispatched)| + if r.Entries? then |r.ids| else 0
      ensures r.Entries? ==> r.ids != []
    {
      next := cursor;
      ghost var log0, last0 := log, lastGenerated;
      r := Read(cursor, maxInFlight);
      GrowthKeepsContiguous(log0, last0, log, lastGenerated, from, cursor, dispatched);
      if r.Entries? {
        next := DispatchAll(r.ids, from, cursor);
      }
    }

    /**
     * receive, in plain mode. What is handed to Dispatch is exactly the entries after the start, in order, without
     * gap or duplicate, up to some point. Every read dispatches something or times out, and when the last one timed
     * out, everything that was in the stream then had been dispatched. It ends with an error exactly when a command
     * failed, and otherwise only because ctx is done. With StartFromLatest the start is the last ID
     * generated when it is resolved, so no entry that was there before the call is dispatched.
     */
    method ReadLoop(start: StartPosition, maxInFlight: int) returns (ok: bool, ghost from: Option<Id>)
      requires Valid() && dispatched == [] && timeouts == 0 && caughtUp == [] && !failed
      modifies this
      ensures Valid() && old(log) <= log
      ensures from.None? ==> !ok && dispatched == []
      ensures from.Some? ==> dispatched <= After(log, from.value)
      ensures from.Some? ==> caughtUp <= log && After(caughtUp, from.value) <= dispatched
      ensures |dispatched| + timeouts >= old(budget) - budget
      ensures start.FromId? ==> from == Some(start.id)
      ensures start.FromLatest? && from.Some? ==> from.value >= old(lastGenerated)
      ensures ok <==> !failed
      ensures ok ==> ctxDone
    {
      var resolved := ResolveStartID(start);
      from := resolved;
      if resolved.None? {
        return false, None;
      }
      var startID := resolved.value;
      while !ctxDone
        invariant Valid() && old(log) <= log
        invariant Contiguous(log, lastGenerated, from.value, startID, dispatched)
        invariant caughtUp <= log && After(caughtUp, from.value) <= dispatched
        invariant |dispatched| + timeouts >= old(budget) - budget && !failed
        decreases budget
      {
        var r;
        r, startID := ReadAndDispatch(startID, maxInFlight, from.value);
        if r.ReadFailed? {
          return false, from;
        }
      }
      ok := true;
    }

    /** Receive, around receive: it returns nil exactly when ctx is done, and otherwise because a command failed. */
    method Receive(start: StartPosition, maxInFlight: int) returns (isNil: bool, ghost from: Option<Id>)
      requires Valid() && dispatched == [] && timeouts == 0 && caughtUp == [] && !failed
      modifies this
      ensures Valid() && old(log) <= log && (isNil <==> ctxDone) && (!isNil ==> failed)
      ensures if from.Some? then dispatched <= After(log, from.value) else dispatched == []
      ensures from.Some? ==> caughtUp <= log && After(caughtUp, from.value) <= dispatched
      ensures start.FromId? ==> from == Some(start.id)
      ensures start.FromLatest? && from.Some? ==> from.value >= old(lastGenerated)
      ensures |dispatched| + timeouts >= old(budget) - budget
    {
      var ok;
      ok, from := ReadLoop(start, maxInFlight);
      isNil := ctxDone || ok;
    }
  }
}
