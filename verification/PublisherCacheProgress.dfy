/**
 * The calls of the publisher cache always come to their end: a run with finitely many calls has boundedly many steps,
 * and the lock never keeps all calls waiting.
 */
module PublisherCacheProgress {
  import opened Wrappers
  import opened PublisherCache
  import opened PublisherCacheRefinement

  function PcWeight(pc: Pc): nat {
    match pc
    case Reading(_) => 6
    case Locking(_) => 5
    case Checking(_) => 4
    case Creating(_) => 3
    case Closing(todo, _) => 2 + |todo|
    case Unlocking(_, _) => 1
    case Finished(_, _) => 0
  }

  function CallsWeight(calls: seq<Pc>): nat {
    if calls == [] then 0 else PcWeight(calls[0]) + CallsWeight(calls[1..])
  }

  /** How many publishers a Close may still have to close. */
  function ToClose(s: State): nat {
    if s.closed then 0 else |s.publishers.Keys|
  }

  function Weight(s: State): nat {
    CallsWeight(s.calls) + ToClose(s)
  }

  lemma {:induction false} WeightAppend(calls: seq<Pc>, pc: Pc)
    ensures CallsWeight(calls + [pc]) == CallsWeight(calls) + PcWeight(pc)
  {
    if calls == [] {
      assert calls + [pc] == [pc];
    } else {
      assert (calls + [pc])[1..] == calls[1..] + [pc];
      WeightAppend(calls[1..], pc);
    }
  }

  lemma {:induction false} WeightUpdate(calls: seq<Pc>, c: nat, pc: Pc)
    requires c < |calls|
    ensures CallsWeight(calls[c := pc]) + PcWeight(calls[c]) == CallsWeight(calls) + PcWeight(pc)
  {
    if c == 0 {
      assert calls[c := pc] == [pc] + calls[1..];
    } else {
      assert calls[c := pc] == [calls[0]] + calls[1..][c - 1 := pc];
      WeightUpdate(calls[1..], c - 1, pc);
    }
  }

  /** A step of a call takes from what its point in the code and the publishers to close weigh together. */
  lemma StepIsLighter(s: State, c: nat, a: Action)
    requires Enabled(s, Step(c, a))
    ensures var t := Apply(s, Step(c, a));
      PcWeight(t.calls[c]) + ToClose(t) < PcWeight(s.calls[c]) + ToClose(s)
  {
    var t, pc := Apply(s, Step(c, a)), s.calls[c];
    assert t.calls[c] == NextPc(s, pc, a);
    match a
    case Create(_) => OneMoreKey(s.publishers, t.publishers, pc.d, |s.created|);
    case CloseOne(d, _) => assert |pc.todo - {d}| == |pc.todo| - 1;
    case _ =>
  }

  lemma OneMoreKey(m: map<Destination, Pub>, n: map<Destination, Pub>, d: Destination, p: Pub)
    requires n == m || n == m[d := p]
    ensures |n.Keys| <= |m.Keys| + 1
  {
    assert n.Keys == m.Keys || n.Keys == m.Keys + {d};
  }

  function Invocations(es: seq<Event>): nat {
    if es == [] then 0 else (if es[0].Invoke? then 1 else 0) + Invocations(es[1..])
  }

  /** A run with n calls of getPublisher and Close has at most 7 * n steps, however the calls race. */
  lemma {:induction false} RunIsBounded(s: State, es: seq<Event>)
    requires Legal(s, es)
    ensures |es| <= Weight(s) + 7 * Invocations(es)
    decreases es
  {
    if es != [] {
      var e, t := es[0], Apply(s, es[0]);
      if e.Invoke? {
        WeightAppend(s.calls, t.calls[|s.calls|]);
      } else {
        WeightUpdate(s.calls, e.c, t.calls[e.c]);
        StepIsLighter(s, e.c, e.a);
      }
      RunIsBounded(t, es[1..]);
    }
  }

  /** No call can take a step. */
  ghost predicate Standstill(s: State) {
    forall c, a :: !Enabled(s, Step(c, a))
  }

  /** Who holds the write lock can go on. */
  lemma WriterGoesOn(s: State)
    requires Inv(s) && s.writer.Some?
    ensures !Standstill(s)
  {
    var c := s.writer.value;
    assert Holding(s.calls[c]) && LocalInv(s, s.calls[c]);
    match s.calls[c]
    case Checking(_) => assert Enabled(s, Step(c, Check));
    case Creating(_) => assert Enabled(s, Step(c, Create(None)));
    case Closing(todo, _) =>
      if d :| d in todo {
        assert Enabled(s, Step(c, CloseOne(d, None)));
      } else {
        assert Enabled(s, Step(c, CloseEnd));
      }
    case Unlocking(_, _) => assert Enabled(s, Step(c, Unlock));
  }

  /**
   * No deadlock: the cache stands still only when every call has returned. With RunIsBounded, that point is always
   * reached.
   */
  lemma StandstillMeansReturned(es: seq<Event>, c: nat)
    requires Legal(Init, es) && Standstill(Exec(Init, es)) && c < |Exec(Init, es).calls|
    ensures Exec(Init, es).calls[c].Finished?
  {
    var s := Exec(Init, es);
    RunRefines(Init, es);
    if s.writer.Some? {
      WriterGoesOn(s);
    }
    assert Holding(s.calls[c]) <==> s.writer == Some(c);
    assert Enabled(s, Step(c, Read)) <==> s.calls[c].Reading?;
    assert Enabled(s, Step(c, Lock)) <==> s.calls[c].Locking?;
  }
}
