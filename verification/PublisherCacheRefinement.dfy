/**
 * The publisher cache refines an atomic map with a closed flag: every getPublisher and Close takes effect in one
 * atomic operation, at a step between its call and its return, and returns what that operation returns.
 */
module PublisherCacheRefinement {
  import opened Wrappers
  import opened PublisherCache
  import opened Sequences

  // ----- the atomic map

  datatype Abs = Abs(
    publishers: map<Destination, Pub>, closed: bool,
    created: seq<Destination>, closes: multiset<Pub>, failures: seq<Error>)

  const AbsInit := Abs(map[], false, [], multiset{}, [])

  /** Which results an operation may have. */
  predicate AbsAllowed(a: Abs, op: Op, ret: Ret) {
    match op
    case Get(d) =>
      if a.closed then ret == ErrClosed
      else if d in a.publishers then ret == Got(a.publishers[d])
      else ret == Got(|a.created|) || ret.CreationFailed?
    case Close =>
      ret.Joined? && (a.closed ==> ret.errs == [])
  }

  function AllPubs(n: nat): multiset<Pub> {
    multiset(seq(n, i => i))
  }

  /** get-or-create, and close-all. */
  function AbsApply(a: Abs, op: Op, ret: Ret): Abs
    requires AbsAllowed(a, op, ret)
  {
    match op
    case Get(d) =>
      if !a.closed && d !in a.publishers && ret.Got? then
        a.(publishers := a.publishers[d := ret.p], created := a.created + [d])
      else a
    case Close =>
      if a.closed then a
      else a.(publishers := map[], closed := true, closes := AllPubs(|a.created|), failures := ret.errs)
  }

  /** One atomic operation: which call it belongs to, what it does and what it returns. */
  datatype Entry = Entry(c: nat, op: Op, ret: Ret)

  predicate AbsLegal(a: Abs, h: seq<Entry>)
    decreases h
  {
    h == [] || (AbsAllowed(a, h[0].op, h[0].ret) && AbsLegal(AbsApply(a, h[0].op, h[0].ret), h[1..]))
  }

  function AbsExec(a: Abs, h: seq<Entry>): Abs
    requires AbsLegal(a, h)
    decreases h
  {
    if h == [] then a else AbsExec(AbsApply(a, h[0].op, h[0].ret), h[1..])
  }

  // ----- the refinement

  /** What the atomic map holds: nothing of a Close shows before its loop is done. */
  function AbsOf(s: State): Abs {
    if InClose(s) then Abs(s.publishers, false, s.created, multiset{}, [])
    else Abs(s.publishers, s.closed, s.created, s.closes, s.failures)
  }

  /** The result of a call whose operation has taken effect. */
  function Committed(pc: Pc): Option<Ret> {
    if pc.Unlocking? || pc.Finished? then Some(pc.ret) else None
  }

  function OpOf(pc: Pc): Op {
    match pc
    case Reading(d) => Get(d)
    case Locking(op) => op
    case Checking(op) => op
    case Creating(d) => Get(d)
    case Closing(_, _) => Close
    case Unlocking(op, _) => op
    case Finished(op, _) => op
  }

  /** The atomic operation a step performs, if any. */
  function Effect(s: State, e: Event): seq<Entry>
    requires Enabled(s, e)
  {
    if e.Invoke? then [] else
      var pc := s.calls[e.c];
      var next := NextPc(s, pc, e.a);
      if Committed(pc) == None && Committed(next).Some? then [Entry(e.c, OpOf(pc), Committed(next).value)] else []
  }

  function History(s: State, es: seq<Event>): seq<Entry>
    requires Legal(s, es)
    decreases es
  {
    if es == [] then [] else Effect(s, es[0]) + History(Apply(s, es[0]), es[1..])
  }

  lemma AllPubsCount(n: nat, p: Pub)
    ensures AllPubs(n)[p] == if p < n then 1 else 0
  {
    var q := seq(n, i => i);
    if n > 0 {
      AllPubsCount(n - 1, p);
      assert q == seq(n - 1, i => i) + [n - 1];
    }
  }

  lemma ClosingEndsWithAll(s: State, c: nat)
    requires Inv(s) && Enabled(s, Step(c, CloseEnd))
    ensures s.closes == AllPubs(|s.created|) && InClose(s) && s.closed && s.failures == s.calls[c].errs
  {
    assert LocalInv(s, s.calls[c]);
    assert Holding(s.calls[c]) <==> s.writer == Some(c);
    forall p: nat {
      AllPubsCount(|s.created|, p);
    }
  }

  lemma InvisibleStep(s: State, c: nat, a: Action)
    requires Inv(s) && Enabled(s, Step(c, a)) && Effect(s, Step(c, a)) == []
    ensures AbsOf(Apply(s, Step(c, a))) == AbsOf(s)
  {
    assert LocalInv(s, s.calls[c]);
    assert Holding(s.calls[c]) <==> s.writer == Some(c);
  }

  lemma VisibleStep(s: State, c: nat, a: Action)
    requires Inv(s) && Enabled(s, Step(c, a)) && Effect(s, Step(c, a)) != []
    ensures var e := Effect(s, Step(c, a))[0];
      AbsAllowed(AbsOf(s), e.op, e.ret) && AbsApply(AbsOf(s), e.op, e.ret) == AbsOf(Apply(s, Step(c, a)))
  {
    assert LocalInv(s, s.calls[c]);
    assert Holding(s.calls[c]) <==> s.writer == Some(c);
    if a.CloseEnd? {
      ClosingEndsWithAll(s, c);
    }
  }

  /** Every step is either invisible, or exactly one atomic operation with the result the call will return. */
  lemma StepRefines(s: State, e: Event)
    requires Inv(s) && Enabled(s, e)
    ensures AbsLegal(AbsOf(s), Effect(s, e))
    ensures AbsExec(AbsOf(s), Effect(s, e)) == AbsOf(Apply(s, e))
  {
    if e.Step? {
      if Effect(s, e) == [] {
        InvisibleStep(s, e.c, e.a);
      } else {
        VisibleStep(s, e.c, e.a);
        assert Effect(s, e)[1..] == [];
        assert AbsLegal(AbsOf(Apply(s, e)), []);
      }
    }
  }

  lemma {:induction false} AbsConcat(a: Abs, h: seq<Entry>, k: seq<Entry>)
    requires AbsLegal(a, h) && AbsLegal(AbsExec(a, h), k)
    ensures AbsLegal(a, h + k) && AbsExec(a, h + k) == AbsExec(AbsExec(a, h), k)
    decreases h
  {
    if h == [] {
      assert h + k == k;
    } else {
      assert (h + k)[1..] == h[1..] + k;
      AbsConcat(AbsApply(a, h[0].op, h[0].ret), h[1..], k);
    }
  }

  lemma {:induction false} RunRefines(s: State, es: seq<Event>)
    requires Inv(s) && Legal(s, es)
    ensures Inv(Exec(s, es))
    ensures AbsLegal(AbsOf(s), History(s, es)) && AbsExec(AbsOf(s), History(s, es)) == AbsOf(Exec(s, es))
    decreases es
  {
    if es != [] {
      StepKeepsInv(s, es[0]);
      StepRefines(s, es[0]);
      RunRefines(Apply(s, es[0]), es[1..]);
      AbsConcat(AbsOf(s), Effect(s, es[0]), History(Apply(s, es[0]), es[1..]));
    }
  }

  /** The entries of one call in a history. */
  function EntriesOf(h: seq<Entry>, c: nat): seq<Entry> {
    if h == [] then [] else (if h[0].c == c then [h[0]] else []) + EntriesOf(h[1..], c)
  }

  lemma {:induction false} EntriesOfConcat(h: seq<Entry>, k: seq<Entry>, c: nat)
    ensures EntriesOf(h + k, c) == EntriesOf(h, c) + EntriesOf(k, c)
  {
    if h == [] {
      assert h + k == k;
    } else {
      assert (h + k)[1..] == h[1..] + k;
      EntriesOfConcat(h[1..], k, c);
      ConcatAssociates(if h[0].c == c then [h[0]] else [], EntriesOf(h[1..], c), EntriesOf(k, c));
    }
  }

  /** What the history must say of call c: nothing before it committed, then its operation and result, once. */
  function Owed(s: State, c: nat): seq<Entry> {
    if c < |s.calls| && Committed(s.calls[c]).Some? then
      [Entry(c, OpOf(s.calls[c]), Committed(s.calls[c]).value)]
    else []
  }

  /** A call keeps its operation, and its result once it took effect. */
  lemma NextKeepsCommitted(s: State, pc: Pc, a: Action)
    requires Ready(s, pc, a)
    ensures OpOf(NextPc(s, pc, a)) == OpOf(pc)
    ensures Committed(pc).Some? ==> Committed(NextPc(s, pc, a)) == Committed(pc)
  {
  }

  lemma StepOwes(s: State, e: Event, c: nat)
    requires Enabled(s, e)
    ensures Owed(Apply(s, e), c) == Owed(s, c) + EntriesOf(Effect(s, e), c)
  {
    var t := Apply(s, e);
    if e.Invoke? {
      assert Owed(t, c) == Owed(s, c);
    } else {
      NextKeepsCommitted(s, s.calls[e.c], e.a);
      assert t.calls == s.calls[e.c := NextPc(s, s.calls[e.c], e.a)];
    }
  }

  lemma {:induction false} RunOwes(s: State, es: seq<Event>, c: nat)
    requires Legal(s, es)
    ensures Owed(Exec(s, es), c) == Owed(s, c) + EntriesOf(History(s, es), c)
    decreases es
  {
    if es != [] {
      StepOwes(s, es[0], c);
      RunOwes(Apply(s, es[0]), es[1..], c);
      EntriesOfConcat(Effect(s, es[0]), History(Apply(s, es[0]), es[1..]), c);
    }
  }

  /** The operations that were invoked, in order. */
  function Invoked(es: seq<Event>): seq<Op> {
    if es == [] then [] else InvokedBy(es[0]) + Invoked(es[1..])
  }

  function InvokedBy(e: Event): seq<Op> {
    if e.Invoke? then [e.op] else []
  }

  /** The operations of the calls. */
  function Ops(s: State): seq<Op> {
    seq(|s.calls|, c requires 0 <= c < |s.calls| => OpOf(s.calls[c]))
  }

  lemma StepKeepsOps(s: State, e: Event)
    requires Enabled(s, e)
    ensures Ops(Apply(s, e)) == Ops(s) + InvokedBy(e)
  {
    if e.Step? {
      NextKeepsCommitted(s, s.calls[e.c], e.a);
      assert Apply(s, e).calls == s.calls[e.c := NextPc(s, s.calls[e.c], e.a)];
    }
  }

  /** Each call is one of the operations invoked, in their order, and stays it. */
  lemma {:induction false} CallsAreThoseInvoked(s: State, es: seq<Event>)
    requires Legal(s, es)
    ensures Ops(Exec(s, es)) == Ops(s) + Invoked(es)
    decreases es
  {
    if es != [] {
      StepKeepsOps(s, es[0]);
      CallsAreThoseInvoked(Apply(s, es[0]), es[1..]);
      ConcatAssociates(Ops(s), InvokedBy(es[0]), Invoked(es[1..]));
    }
  }

  lemma CallIsInvoked(es: seq<Event>, c: nat)
    requires Legal(Init, es) && c < |Exec(Init, es).calls|
    ensures c < |Invoked(es)| && OpOf(Exec(Init, es).calls[c]) == Invoked(es)[c]
  {
    CallsAreThoseInvoked(Init, es);
    assert Ops(Exec(Init, es))[c] == OpOf(Exec(Init, es).calls[c]);
  }

  /** The errors that failed creations returned in a run, in order. */
  function CreateErrors(es: seq<Event>): seq<Error> {
    if es == [] then [] else CreateErrorOf(es[0]) + CreateErrors(es[1..])
  }

  function CreateErrorOf(e: Event): seq<Error> {
    if e.Step? && e.a.Create? && e.a.failure.Some? then [e.a.failure.value] else []
  }

  /** The errors of failed creations in the results of a history, in order. */
  function ReportedErrors(h: seq<Entry>): seq<Error> {
    if h == [] then [] else ReportedErrorOf(h[0]) + ReportedErrors(h[1..])
  }

  function ReportedErrorOf(e: Entry): seq<Error> {
    if e.ret.CreationFailed? then [e.ret.e] else []
  }

  lemma CreationErrorIsReported(s: State, e: Event)
    requires Enabled(s, e)
    ensures Effect(s, e) == [] ==> CreateErrorOf(e) == []
    ensures Effect(s, e) != [] ==> |Effect(s, e)| == 1 && ReportedErrorOf(Effect(s, e)[0]) == CreateErrorOf(e)
  {
  }

  /** The call that tried a creation that fails returns its error, and no other call returns one. */
  lemma {:induction false} CreationErrorsAreReported(s: State, es: seq<Event>)
    requires Legal(s, es)
    ensures ReportedErrors(History(s, es)) == CreateErrors(es)
    decreases es
  {
    if es != [] {
      CreationErrorIsReported(s, es[0]);
      CreationErrorsAreReported(Apply(s, es[0]), es[1..]);
      var rest := History(Apply(s, es[0]), es[1..]);
      assert History(s, es) == if Effect(s, es[0]) == [] then rest else [Effect(s, es[0])[0]] + rest;
    }
  }

  /** A lookup of a destination that is cached, or after Close, returns without taking the write lock. */
  lemma HitsTakeNoLock(s: State, c: nat)
    requires Enabled(s, Step(c, Read))
    ensures var d, pc := s.calls[c].d, Apply(s, Step(c, Read)).calls[c];
      (pc.Locking? <==> !s.closed && d !in s.publishers) && (pc.Locking? <==> !pc.Finished?)
  {
  }

  /**
   * Linearization: the history of every run is a run of the atomic map that ends in what the cache holds, and each
   * call that returned has exactly one entry in it, with the operation that was invoked and the result it returned.
   */
  lemma CacheLinearizes(es: seq<Event>, c: nat)
    requires Legal(Init, es) && c < |Exec(Init, es).calls| && Exec(Init, es).calls[c].Finished?
    ensures AbsLegal(AbsInit, History(Init, es)) && AbsExec(AbsInit, History(Init, es)) == AbsOf(Exec(Init, es))
    ensures var pc := Exec(Init, es).calls[c];
      c < |Invoked(es)| && EntriesOf(History(Init, es), c) == [Entry(c, Invoked(es)[c], pc.ret)]
  {
    RunRefines(Init, es);
    CallIsInvoked(es, c);
    RunOwes(Init, es, c);
  }

  // ----- consequences

  /** At most one publisher is ever created for a destination. */
  lemma OnePublisherPerDestination(es: seq<Event>, p: Pub, q: Pub)
    requires Legal(Init, es) && p < |Exec(Init, es).created| && q < |Exec(Init, es).created|
    requires Exec(Init, es).created[p] == Exec(Init, es).created[q]
    ensures p == q
  {
    RunRefines(Init, es);
  }

  /** The call returned publisher p for destination d. */
  predicate Returned(s: State, c: nat, d: Destination, p: Pub) {
    c < |s.calls| && s.calls[c] == Finished(Get(d), Got(p))
  }

  lemma ReturnedIsCreated(s: State, c: nat, d: Destination, p: Pub)
    requires Inv(s) && Returned(s, c, d, p)
    ensures p < |s.created| && s.created[p] == d
  {
    assert LocalInv(s, s.calls[c]);
  }

  /** All lookups of a destination that succeed return the same publisher. */
  lemma LookupsAgree(es: seq<Event>, c1: nat, c2: nat, d: Destination, p: Pub, q: Pub)
    requires Legal(Init, es) && Returned(Exec(Init, es), c1, d, p) && Returned(Exec(Init, es), c2, d, q)
    ensures p == q
  {
    RunRefines(Init, es);
    ReturnedIsCreated(Exec(Init, es), c1, d, p);
    ReturnedIsCreated(Exec(Init, es), c2, d, q);
    OnePublisherPerDestination(es, p, q);
  }

  /** Nothing is created once Close has set the flag. */
  lemma {:induction false} NothingCreatedAfterClose(s: State, es: seq<Event>)
    requires Inv(s) && s.closed && Legal(s, es)
    ensures Exec(s, es).closed && Exec(s, es).created == s.created
    decreases es
  {
    if es != [] {
      assert es[0].Step? ==> LocalInv(s, s.calls[es[0].c]);
      StepKeepsInv(s, es[0]);
      NothingCreatedAfterClose(Apply(s, es[0]), es[1..]);
    }
  }

  /** The results of the Close operations of a history, in order. */
  function CloseResults(h: seq<Entry>): seq<Ret> {
    if h == [] then [] else (if h[0].op.Close? then [h[0].ret] else []) + CloseResults(h[1..])
  }

  lemma {:induction false} AbsCloseAccounting(a: Abs, h: seq<Entry>)
    requires AbsLegal(a, h)
    ensures var b := AbsExec(a, h);
      if a.closed then
        b == a && forall r | r in CloseResults(h) :: r == Joined([])
      else if CloseResults(h) == [] then
        !b.closed && b.closes == a.closes && b.failures == a.failures
      else
        && b.closed && b.closes == AllPubs(|b.created|)
        && CloseResults(h)[0] == Joined(b.failures)
        && forall i | 0 < i < |CloseResults(h)| :: CloseResults(h)[i] == Joined([])
    decreases h
  {
    if h != [] {
      AbsCloseAccounting(AbsApply(a, h[0].op, h[0].ret), h[1..]);
      var rest := CloseResults(h[1..]);
      assert forall i | 0 <= i < |rest| :: rest[i] in rest;
    }
  }

  /** The errors that the calls of Close on destination publishers returned in a run, in order. */
  function CloseErrors(es: seq<Event>): seq<Error> {
    if es == [] then [] else CloseErrorOf(es[0]) + CloseErrors(es[1..])
  }

  function CloseErrorOf(e: Event): seq<Error> {
    if e.Step? && e.a.CloseOne? && e.a.failure.Some? then [e.a.failure.value] else []
  }

  lemma FailureIsKept(s: State, e: Event)
    requires Enabled(s, e)
    ensures Apply(s, e).failures == s.failures + CloseErrorOf(e)
  {
  }

  /** No error of closing a publisher is lost. */
  lemma {:induction false} FailuresAreKept(s: State, es: seq<Event>)
    requires Legal(s, es)
    ensures Exec(s, es).failures == s.failures + CloseErrors(es)
    decreases es
  {
    if es != [] {
      FailureIsKept(s, es[0]);
      FailuresAreKept(Apply(s, es[0]), es[1..]);
      ConcatAssociates(s.failures, CloseErrorOf(es[0]), CloseErrors(es[1..]));
    }
  }

  /**
   * Close accounting: in every run in which a Close took effect and none is in progress, each publisher ever created
   * was closed exactly once; the first Close returned exactly the errors of those calls, and every later one nil.
   */
  lemma CloseAccounting(es: seq<Event>)
    requires Legal(Init, es) && !InClose(Exec(Init, es)) && CloseResults(History(Init, es)) != []
    ensures var s, rs := Exec(Init, es), CloseResults(History(Init, es));
      && s.closed && s.publishers == map[]
      && (forall p: nat :: s.closes[p] == if p < |s.created| then 1 else 0)
      && rs[0] == Joined(CloseErrors(es))
      && (forall i | 0 < i < |rs| :: rs[i] == Joined([]))
  {
    RunRefines(Init, es);
    AbsCloseAccounting(AbsInit, History(Init, es));
    FailuresAreKept(Init, es);
  }
}
