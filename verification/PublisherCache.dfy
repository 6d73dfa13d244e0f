/**
 * The per-destination publisher cache of MessagePublisher (core/publisher/publisher.go): getPublisher, with its
 * lookup under the read lock and its second look under the write lock, racing with Close and with itself.
 *
 * Any number of calls run concurrently. A step is one critical section under the read lock, or one action inside the
 * critical section under the write lock. The concurrent system is proved to refine an atomic map with a closed flag.
 */
module PublisherCache {
  import opened Wrappers

  type Destination = string
  type Error = nat

  /** Destination publishers are numbered in the order they are created. */
  type Pub = nat

  datatype Op = Get(d: Destination) | Close

  datatype Ret =
    | Got(p: Pub) | ErrClosed | CreationFailed(e: Error)   // of getPublisher
    | Joined(errs: seq<Error>)                             // of Close, nil if there are none

  datatype Pc =
    | Reading(d: Destination)                             // getPublisher, before its read section
    | Locking(op: Op)                                     // waiting for the write lock
    | Checking(op: Op)                                    // holding it
    | Creating(d: Destination)                            // calling GetDestinationPublisher
    | Closing(todo: set<Destination>, errs: seq<Error>)   // the loop of Close
    | Unlocking(op: Op, ret: Ret)
    | Finished(op: Op, ret: Ret)

  /** created, closes and failures record the history: who was created, closed, and failed to close. */
  datatype State = State(
    calls: seq<Pc>, writer: Option<nat>,
    publishers: map<Destination, Pub>, closed: bool,
    created: seq<Destination>, closes: multiset<Pub>, failures: seq<Error>)

  datatype Action =
    | Read | Lock | Check
    | Create(failure: Option<Error>)
    | CloseOne(d: Destination, failure: Option<Error>)
    | CloseEnd | Unlock

  datatype Event = Invoke(op: Op) | Step(c: nat, a: Action)

  const Init := State([], None, map[], false, [], multiset{}, [])

  predicate Enabled(s: State, e: Event) {
    e.Invoke? || (e.c < |s.calls| && Ready(s, s.calls[e.c], e.a))
  }

  predicate Ready(s: State, pc: Pc, a: Action) {
    match a
    case Read => pc.Reading? && s.writer == None
    case Lock => pc.Locking? && s.writer == None
    case Check => pc.Checking?
    case Create(_) => pc.Creating?
    case CloseOne(d, _) => pc.Closing? && d in pc.todo && d in s.publishers
    case CloseEnd => pc.Closing? && pc.todo == {}
    case Unlock => pc.Unlocking?
  }

  /** Where the call goes. */
  function NextPc(s: State, pc: Pc, a: Action): Pc
    requires Ready(s, pc, a)
  {
    match a
    case Read =>
      if s.closed then Finished(Get(pc.d), ErrClosed)
      else if pc.d in s.publishers then Finished(Get(pc.d), Got(s.publishers[pc.d]))
      else Locking(Get(pc.d))
    case Lock => Checking(pc.op)
    case Check =>
      if pc.op == Close then
        if s.closed then Unlocking(Close, Joined([])) else Closing(s.publishers.Keys, [])
      else
        if s.closed then Unlocking(pc.op, ErrClosed)
        else if pc.op.d in s.publishers then Unlocking(pc.op, Got(s.publishers[pc.op.d]))
        else Creating(pc.op.d)
    case Create(failure) =>
      Unlocking(Get(pc.d), if failure.Some? then CreationFailed(failure.value) else Got(|s.created|))
    case CloseOne(d, failure) =>
      Closing(pc.todo - {d}, if failure.Some? then pc.errs + [failure.value] else pc.errs)
    case CloseEnd => Unlocking(Close, Joined(pc.errs))
    case Unlock => Finished(pc.op, pc.ret)
  }

  function Apply(s: State, e: Event): State
    requires Enabled(s, e)
  {
    if e.Invoke? then s.(calls := s.calls + [if e.op.Get? then Reading(e.op.d) else Locking(Close)]) else
      var pc := s.calls[e.c];
      var t := s.(calls := s.calls[e.c := NextPc(s, pc, e.a)]);
      match e.a
      case Read => t
      case Lock => t.(writer := Some(e.c))
      case Check => if pc.op == Close then t.(closed := true) else t
      case Create(failure) =>
        if failure.Some? then t else t.(publishers := s.publishers[pc.d := |s.created|], created := s.created + [pc.d])
      case CloseOne(d, failure) =>
        t.(closes := s.closes + multiset{s.publishers[d]},
           failures := if failure.Some? then s.failures + [failure.value] else s.failures)
      case CloseEnd => t.(publishers := map[])
      case Unlock => t.(writer := None)
  }

  predicate Legal(s: State, es: seq<Event>)
    decreases es
  {
    es == [] || (Enabled(s, es[0]) && Legal(Apply(s, es[0]), es[1..]))
  }

  function Exec(s: State, es: seq<Event>): State
    requires Legal(s, es)
    decreases es
  {
    if es == [] then s else Exec(Apply(s, es[0]), es[1..])
  }

  // ----- what every run keeps

  predicate Holding(pc: Pc) {
    pc.Checking? || pc.Creating? || pc.Closing? || pc.Unlocking?
  }

  /** The map holds exactly the created publishers, each under its own destination. */
  predicate Cached(s: State) {
    && (forall p: nat | p < |s.created| :: s.created[p] in s.publishers && s.publishers[s.created[p]] == p)
    && (forall d | d in s.publishers :: s.publishers[d] < |s.created| && s.created[s.publishers[d]] == d)
  }

  predicate NoneClosed(s: State) {
    s.closes == multiset{} && s.failures == []
  }

  ghost predicate AllClosedOnce(s: State) {
    forall p: nat :: s.closes[p] == if p < |s.created| then 1 else 0
  }

  /** Each created publisher is closed once, but for those of the destinations in todo. */
  ghost predicate ClosedBut(created: seq<Destination>, closes: multiset<Pub>, todo: set<Destination>) {
    forall p: nat :: closes[p] == if p < |created| && created[p] !in todo then 1 else 0
  }

  /** One more publisher is closed. */
  lemma ClosedOneMore(created: seq<Destination>, closes: multiset<Pub>, todo: set<Destination>, p: Pub)
    requires ClosedBut(created, closes, todo) && p < |created| && created[p] in todo
    requires forall q: nat | q < |created| && created[q] == created[p] :: q == p
    ensures ClosedBut(created, closes + multiset{p}, todo - {created[p]})
  {
  }

  ghost predicate LocalInv(s: State, pc: Pc) {
    match pc
    case Creating(d) => !s.closed && d !in s.publishers
    case Closing(todo, errs) =>
      s.closed && Cached(s) && todo <= s.publishers.Keys && errs == s.failures && ClosedBut(s.created, s.closes, todo)
    case Unlocking(op, ret) => RetOk(s, op, ret)
    case Finished(op, ret) => RetOk(s, op, ret)
    case _ => true
  }

  /** A lookup that succeeded got the publisher created for its destination. */
  predicate RetOk(s: State, op: Op, ret: Ret) {
    match ret
    case Got(p) => op.Get? && p < |s.created| && s.created[p] == op.d
    case Joined(_) => op.Close?
    case _ => op.Get?
  }

  /** Some call is in the loop of Close. */
  predicate InClose(s: State) {
    s.writer.Some? && s.writer.value < |s.calls| && s.calls[s.writer.value].Closing?
  }

  ghost predicate SharedInv(s: State) {
    && (!s.closed ==> Cached(s) && NoneClosed(s))
    && (s.closed && !InClose(s) ==> s.publishers == map[] && AllClosedOnce(s))
    && (forall p: nat, q: nat | p < q < |s.created| :: s.created[p] != s.created[q])
  }

  predicate LockInv(s: State) {
    && (s.writer.Some? ==> s.writer.value < |s.calls|)
    && (forall c | 0 <= c < |s.calls| :: Holding(s.calls[c]) <==> s.writer == Some(c))
  }

  ghost predicate Inv(s: State) {
    && SharedInv(s)
    && LockInv(s)
    && (forall c | 0 <= c < |s.calls| :: LocalInv(s, s.calls[c]))
  }

  lemma StepKeepsLockInv(s: State, e: Event)
    requires LockInv(s) && Enabled(s, e)
    ensures LockInv(Apply(s, e))
  {
  }

  lemma StepKeepsSharedInv(s: State, e: Event)
    requires Inv(s) && Enabled(s, e)
    ensures SharedInv(Apply(s, e))
  {
    if e.Step? {
      var pc := s.calls[e.c];
      assert LocalInv(s, pc);
    }
  }

  /** The call that takes the step. */
  lemma StepKeepsOwnInv(s: State, c: nat, a: Action)
    requires Inv(s) && Enabled(s, Step(c, a))
    ensures LocalInv(Apply(s, Step(c, a)), Apply(s, Step(c, a)).calls[c])
  {
    var t, pc := Apply(s, Step(c, a)), s.calls[c];
    assert LocalInv(s, pc) && t.calls[c] == NextPc(s, pc, a);
    match a
    case CloseOne(d, _) => ClosedOneMore(s.created, s.closes, pc.todo, s.publishers[d]);
    case _ =>
  }

  /** The other calls. */
  lemma StepKeepsOtherInv(s: State, c: nat, a: Action, o: nat)
    requires Inv(s) && Enabled(s, Step(c, a)) && o < |s.calls| && o != c
    ensures LocalInv(Apply(s, Step(c, a)), s.calls[o])
  {
    assert LocalInv(s, s.calls[o]);
    assert Holding(s.calls[o]) <==> s.writer == Some(o);
  }

  lemma StepKeepsInv(s: State, e: Event)
    requires Inv(s) && Enabled(s, e)
    ensures Inv(Apply(s, e))
  {
    StepKeepsLockInv(s, e);
    StepKeepsSharedInv(s, e);
    var t := Apply(s, e);
    forall o | 0 <= o < |t.calls| ensures LocalInv(t, t.calls[o]) {
      if e.Step? && e.c == o {
        StepKeepsOwnInv(s, e.c, e.a);
      } else if e.Step? {
        StepKeepsOtherInv(s, e.c, e.a, o);
      } else if o < |s.calls| {
        assert LocalInv(s, s.calls[o]);
      }
    }
  }
}
