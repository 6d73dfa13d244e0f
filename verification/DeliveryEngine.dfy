/**
 * The in-process delivery engine: ChannelSubscriber.Receive and drain (core/subscriber/channel.go) together with the
 * Dispatcher they drive (core/subscriber/dispatcher.go), as an interleaved step system.
 *
 * One goroutine runs the receive loop; every message that got a slot is handled by a goroutine of its own. A step is
 * one atomic action of the loop, of one handler goroutine, or of the environment. The steps of a run are recorded as
 * a sequence of events, so a statement about every run is a statement about every legal event sequence.
 */
module DeliveryEngine {
  import opened Sequences

  /** The identity of a message of the input channel. */
  type Msg = nat

  /** Which loop called Dispatch: the select of Receive, or the one of drain. */
  datatype Origin = FromReceive | FromDrain

  /** Where the receive loop is. */
  datatype Pc =
    | Selecting                                  // the select of Receive
    | Checking(msg: Msg, origin: Origin)         // Dispatch, about to read ctx.Err()
    | Acquiring(msg: Msg, origin: Origin)        // Dispatch, in its select on the slots and ctx
    | NackingInLoop(msg: Msg, origin: Origin)    // Dispatch, nacking because ctx is done
    | Stopping                                   // the Wait of the ctx.Done arm
    | DrainWaiting                               // the Wait of drain
    | DrainChecking                              // drain, about to read ctx.Err()
    | DrainSelecting                             // the non-blocking select of drain
    | Returned

  /**
   * The handler goroutines are counted by what they are doing: running the handler, sending to retry in their nack,
   * about to give the slot back, or about to call wg.Done. slots and wg are the semaphore and the wait group the code
   * tests; taken and acked record the history.
   */
  datatype State = State(
    pc: Pc, ctxDone: bool,
    running: multiset<Msg>, nacking: multiset<Msg>, releasing: nat, finishing: nat,
    slots: nat, wg: nat,
    retry: seq<Msg>,
    taken: multiset<Msg>, acked: multiset<Msg>)

  datatype Event =
    | Cancel                                     // ctx becomes done
    | TakeInput(m: Msg) | TakeNil | SeeClosed    // the input arm of Receive
    | TakeRetry | SeeDone                        // the other two arms
    | CheckCtx | Acquire | GiveUp | LoopNack     // Dispatch
    | HandlerOk(m: Msg) | HandlerErr(m: Msg) | NackSend(m: Msg) | Release | Finish  // a handler goroutine
    | StopDone | DrainDone | DrainCheck | DrainTake | DrainEmpty

  const Init := State(Selecting, false, multiset{}, multiset{}, 0, 0, 0, 0, [], multiset{}, multiset{})

  /** The capacity of the retry channel. */
  function RetryCap(max: nat): nat { max + 1 }

  predicate Enabled(max: nat, s: State, e: Event) {
    match e
    case Cancel => !s.ctxDone
    case TakeInput(_) => s.pc.Selecting?
    case TakeNil => s.pc.Selecting?
    case SeeClosed => s.pc.Selecting?
    case TakeRetry => s.pc.Selecting? && s.retry != []
    case SeeDone => s.pc.Selecting? && s.ctxDone
    case CheckCtx => s.pc.Checking?
    case Acquire => s.pc.Acquiring? && s.slots < max
    case GiveUp => s.pc.Acquiring? && s.ctxDone
    case LoopNack => s.pc.NackingInLoop? && |s.retry| < RetryCap(max)
    case HandlerOk(m) => m in s.running
    case HandlerErr(m) => m in s.running
    case NackSend(m) => m in s.nacking && |s.retry| < RetryCap(max)
    case Release => s.releasing > 0 && s.slots > 0
    case Finish => s.finishing > 0 && s.wg > 0
    case StopDone => s.pc.Stopping? && s.wg == 0
    case DrainDone => s.pc.DrainWaiting? && s.wg == 0
    case DrainCheck => s.pc.DrainChecking?
    case DrainTake => s.pc.DrainSelecting? && s.retry != []
    case DrainEmpty => s.pc.DrainSelecting? && s.retry == []
  }

  /** Where the loop goes when Dispatch returns. */
  function Resume(origin: Origin): Pc {
    if origin == FromReceive then Selecting else DrainWaiting
  }

  function Apply(max: nat, s: State, e: Event): State
    requires Enabled(max, s, e)
  {
    match e
    case Cancel => s.(ctxDone := true)
    case TakeInput(m) => s.(pc := Checking(m, FromReceive), taken := s.taken + multiset{m})
    case TakeNil => s
    case SeeClosed => s.(pc := DrainWaiting)
    case TakeRetry => s.(pc := Checking(s.retry[0], FromReceive), retry := s.retry[1..])
    case SeeDone => s.(pc := Stopping)
    case CheckCtx =>
      s.(pc := if s.ctxDone then NackingInLoop(s.pc.msg, s.pc.origin) else Acquiring(s.pc.msg, s.pc.origin))
    case Acquire =>
      s.(pc := Resume(s.pc.origin), slots := s.slots + 1, wg := s.wg + 1, running := s.running + multiset{s.pc.msg})
    case GiveUp => s.(pc := NackingInLoop(s.pc.msg, s.pc.origin))
    case LoopNack => s.(pc := Resume(s.pc.origin), retry := s.retry + [s.pc.msg])
    case HandlerOk(m) =>
      s.(running := s.running - multiset{m}, acked := s.acked + multiset{m}, releasing := s.releasing + 1)
    case HandlerErr(m) => s.(running := s.running - multiset{m}, nacking := s.nacking + multiset{m})
    case NackSend(m) =>
      s.(nacking := s.nacking - multiset{m}, retry := s.retry + [m], releasing := s.releasing + 1)
    case Release => s.(releasing := s.releasing - 1, slots := s.slots - 1, finishing := s.finishing + 1)
    case Finish => s.(finishing := s.finishing - 1, wg := s.wg - 1)
    case StopDone => s.(pc := Returned)
    case DrainDone => s.(pc := DrainChecking)
    case DrainCheck => s.(pc := if s.ctxDone then Returned else DrainSelecting)
    case DrainTake => s.(pc := Checking(s.retry[0], FromDrain), retry := s.retry[1..])
    case DrainEmpty => s.(pc := Returned)
  }

  /** es is a run of the engine from s. */
  predicate Legal(max: nat, s: State, es: seq<Event>)
    decreases es
  {
    es == [] || (Enabled(max, s, es[0]) && Legal(max, Apply(max, s, es[0]), es[1..]))
  }

  function Exec(max: nat, s: State, es: seq<Event>): State
    requires Legal(max, s, es)
    decreases es
  {
    if es == [] then s else Exec(max, Apply(max, s, es[0]), es[1..])
  }

  /** The messages taken from the input and not acked yet. */
  function Outstanding(s: State): int {
    |s.taken| - |s.acked|
  }

  /** The largest number of outstanding messages at any point of a run. */
  function Peak(max: nat, s: State, es: seq<Event>): int
    requires Legal(max, s, es)
    decreases es
  {
    if es == [] then Outstanding(s) else
      var rest := Peak(max, Apply(max, s, es[0]), es[1..]);
      if Outstanding(s) > rest then Outstanding(s) else rest
  }

  // ----- what every run keeps

  /** The loop is inside a Dispatch call. */
  predicate InDispatch(pc: Pc) {
    pc.Checking? || pc.Acquiring? || pc.NackingInLoop?
  }

  /** The message the loop itself holds, including a nack in progress. */
  function Held(pc: Pc): multiset<Msg> {
    if InDispatch(pc) then multiset{pc.msg} else multiset{}
  }

  predicate Conserved(s: State) {
    s.taken == s.acked + s.running + s.nacking + multiset(s.retry) + Held(s.pc)
  }

  /** The loop is past a Wait of drain and has not dispatched since. */
  predicate DrainAlone(pc: Pc) {
    pc.DrainChecking? || pc.DrainSelecting? ||
    (InDispatch(pc) && pc.origin == FromDrain)
  }

  predicate Counted(max: nat, s: State) {
    && s.slots == |s.running| + |s.nacking| + s.releasing <= max
    && s.wg == s.slots + s.finishing
    && |s.retry| <= RetryCap(max)
    && (s.pc.Stopping? || s.pc.NackingInLoop? ==> s.ctxDone)
    && (DrainAlone(s.pc) || s.pc.Returned? ==> s.wg == 0)
    && (s.pc.Returned? ==> s.ctxDone || s.retry == [])
  }

  predicate Inv(max: nat, s: State) {
    Conserved(s) && Counted(max, s)
  }

  lemma TakingHeadKeepsConserved(s: State, origin: Origin)
    requires Conserved(s) && s.retry != [] && Held(s.pc) == multiset{}
    ensures Conserved(s.(pc := Checking(s.retry[0], origin), retry := s.retry[1..]))
  {
    assert s.retry == [s.retry[0]] + s.retry[1..];
    assert multiset(s.retry) == multiset{s.retry[0]} + multiset(s.retry[1..]);
  }

  /** A step of a handler goroutine. */
  predicate OfHandler(e: Event) {
    e.HandlerOk? || e.HandlerErr? || e.NackSend? || e.Release? || e.Finish?
  }

  /** A step of a Dispatch call in the loop goroutine. */
  predicate OfDispatch(e: Event) {
    e.CheckCtx? || e.Acquire? || e.GiveUp? || e.LoopNack?
  }

  /** A message goes from one place to another, beside others. */
  lemma Moves(rest: multiset<Msg>, from: multiset<Msg>, to: multiset<Msg>, m: Msg)
    requires m in from
    ensures rest + (from - multiset{m}) + (to + multiset{m}) == rest + from + to
    ensures (to + multiset{m}) + (from - multiset{m}) == to + from
  {
  }

  lemma Appends(q: seq<Msg>, m: Msg)
    ensures multiset(q + [m]) == multiset(q) + multiset{m}
  {
  }

  lemma HandlerStepKeepsConserved(max: nat, s: State, e: Event)
    requires Conserved(s) && Enabled(max, s, e) && OfHandler(e)
    ensures Conserved(Apply(max, s, e))
  {
    match e {
      case HandlerOk(m) => Moves(multiset{}, s.running, s.acked, m);
      case HandlerErr(m) => Moves(s.acked, s.running, s.nacking, m);
      case NackSend(m) =>
        Moves(s.acked + s.running, s.nacking, multiset(s.retry), m);
        Appends(s.retry, m);
      case _ =>
    }
  }

  /** The loop goes to another point, where it holds the same. */
  lemma MovingKeepsConserved(s: State, pc: Pc)
    requires Conserved(s) && Held(pc) == Held(s.pc)
    ensures Conserved(s.(pc := pc))
  {
  }

  /** What the loop held goes to a handler, or to retry. */
  lemma Hands(a: multiset<Msg>, b: multiset<Msg>, c: multiset<Msg>, q: multiset<Msg>, held: multiset<Msg>)
    ensures a + (b + held) + c + q + multiset{} == a + b + c + q + held
    ensures a + b + c + (q + held) + multiset{} == a + b + c + q + held
  {
  }

  lemma DispatchStepKeepsConserved(max: nat, s: State, e: Event)
    requires Conserved(s) && Enabled(max, s, e) && OfDispatch(e)
    ensures Conserved(Apply(max, s, e))
  {
    match e {
      case CheckCtx => MovingKeepsConserved(s, Apply(max, s, e).pc);
      case GiveUp => MovingKeepsConserved(s, Apply(max, s, e).pc);
      case Acquire => Hands(s.acked, s.running, s.nacking, multiset(s.retry), Held(s.pc));
      case LoopNack =>
        Hands(s.acked, s.running, s.nacking, multiset(s.retry), Held(s.pc));
        Appends(s.retry, s.pc.msg);
    }
  }

  lemma TakingInputKeepsConserved(s: State, m: Msg)
    requires Conserved(s) && Held(s.pc) == multiset{}
    ensures Conserved(s.(pc := Checking(m, FromReceive), taken := s.taken + multiset{m}))
  {
  }

  lemma SelectStepKeepsConserved(max: nat, s: State, e: Event)
    requires Conserved(s) && Enabled(max, s, e) && !OfHandler(e) && !OfDispatch(e)
    ensures Conserved(Apply(max, s, e))
  {
    match e
    case Cancel =>
    case TakeInput(m) => TakingInputKeepsConserved(s, m);
    case TakeNil =>
    case TakeRetry => TakingHeadKeepsConserved(s, FromReceive);
    case DrainTake => TakingHeadKeepsConserved(s, FromDrain);
    case SeeClosed => MovingKeepsConserved(s, DrainWaiting);
    case SeeDone => MovingKeepsConserved(s, Stopping);
    case StopDone => MovingKeepsConserved(s, Returned);
    case DrainDone => MovingKeepsConserved(s, DrainChecking);
    case DrainCheck => MovingKeepsConserved(s, Apply(max, s, e).pc);
    case DrainEmpty => MovingKeepsConserved(s, Returned);
  }

  lemma StepKeepsConserved(max: nat, s: State, e: Event)
    requires Conserved(s) && Enabled(max, s, e)
    ensures Conserved(Apply(max, s, e))
  {
    if OfHandler(e) {
      HandlerStepKeepsConserved(max, s, e);
    } else if OfDispatch(e) {
      DispatchStepKeepsConserved(max, s, e);
    } else {
      SelectStepKeepsConserved(max, s, e);
    }
  }

  lemma HandlerStepKeepsCounted(max: nat, s: State, e: Event)
    requires Counted(max, s) && Enabled(max, s, e) && OfHandler(e)
    ensures Counted(max, Apply(max, s, e))
  {
  }

  lemma DispatchStepKeepsCounted(max: nat, s: State, e: Event)
    requires Counted(max, s) && Enabled(max, s, e) && OfDispatch(e)
    ensures Counted(max, Apply(max, s, e))
  {
  }

  lemma SelectStepKeepsCounted(max: nat, s: State, e: Event)
    requires Counted(max, s) && Enabled(max, s, e) && !OfHandler(e) && !OfDispatch(e)
    ensures Counted(max, Apply(max, s, e))
  {
  }

  lemma StepKeepsCounted(max: nat, s: State, e: Event)
    requires Counted(max, s) && Enabled(max, s, e)
    ensures Counted(max, Apply(max, s, e))
  {
    if OfHandler(e) {
      HandlerStepKeepsCounted(max, s, e);
    } else if OfDispatch(e) {
      DispatchStepKeepsCounted(max, s, e);
    } else {
      SelectStepKeepsCounted(max, s, e);
    }
  }

  lemma StepKeepsInv(max: nat, s: State, e: Event)
    requires Inv(max, s) && Enabled(max, s, e)
    ensures Inv(max, Apply(max, s, e))
  {
    StepKeepsConserved(max, s, e);
    StepKeepsCounted(max, s, e);
  }

  lemma {:induction false} RunKeepsInv(max: nat, s: State, es: seq<Event>)
    requires Inv(max, s) && Legal(max, s, es)
    ensures Inv(max, Exec(max, s, es))
    ensures Outstanding(Exec(max, s, es)) <= Peak(max, s, es)
    decreases es
  {
    if es != [] {
      StepKeepsInv(max, s, es[0]);
      RunKeepsInv(max, Apply(max, s, es[0]), es[1..]);
    }
  }

  /**
   * Message conservation and the in-flight bound: in every state of every run, each message taken from the input is
   * acked, in a handler, in a nack, in retry or held by the loop, as often as it was taken; at most max handlers run.
   */
  lemma MessagesAreConserved(max: nat, es: seq<Event>)
    requires Legal(max, Init, es)
    ensures Conserved(Exec(max, Init, es))
    ensures |Exec(max, Init, es).running| <= max
  {
    RunKeepsInv(max, Init, es);
  }

  /** What Receive leaves behind: no handler is left, and only the messages still in retry were not handled. */
  lemma ReturnLeavesNoHandler(max: nat, es: seq<Event>)
    requires Legal(max, Init, es) && Exec(max, Init, es).pc == Returned
    ensures var s := Exec(max, Init, es);
      && s.wg == 0 && s.running == s.nacking == multiset{}
      && s.taken == s.acked + multiset(s.retry)
      && (!s.ctxDone ==> s.taken == s.acked)
  {
    RunKeepsInv(max, Init, es);
  }

  datatype Attempt = None | Succeeded | Failed

  function AttemptOf(e: Event, m: Msg): Attempt {
    if e == HandlerOk(m) then Succeeded else if e == HandlerErr(m) then Failed else None
  }

  /** How the last attempt to handle m in a run ended. */
  function LastAttempt(es: seq<Event>, m: Msg): Attempt {
    if es == [] then None else
      var rest := LastAttempt(es[1..], m);
      if rest != None then rest else AttemptOf(es[0], m)
  }

  lemma {:induction false} TakenGrows(max: nat, s: State, es: seq<Event>)
    requires Legal(max, s, es)
    ensures s.taken <= Exec(max, s, es).taken
    decreases es
  {
    if es != [] {
      TakenGrows(max, Apply(max, s, es[0]), es[1..]);
    }
  }

  lemma AckedBy(max: nat, s: State, e: Event)
    requires Enabled(max, s, e)
    ensures Apply(max, s, e).acked == if e.HandlerOk? then s.acked + multiset{e.m} else s.acked
  {
  }

  /** A message that is handled, and was taken once, is not acked yet. */
  lemma HandledIsNotAcked(s: State, m: Msg)
    requires Conserved(s) && s.taken[m] <= 1 && m in s.running
    ensures m !in s.acked
  {
    assert s.taken[m] == s.acked[m] + s.running[m] + s.nacking[m] + multiset(s.retry)[m] + Held(s.pc)[m];
  }

  lemma AckFollowsAttempt(max: nat, s: State, e: Event, m: Msg)
    requires Enabled(max, s, e) && (e == HandlerErr(m) ==> m !in s.acked)
    ensures m in Apply(max, s, e).acked <==>
            AttemptOf(e, m) == Succeeded || (AttemptOf(e, m) == None && m in s.acked)
  {
    AckedBy(max, s, e);
    if e.HandlerOk? {
      assert m in s.acked + multiset{e.m} <==> m in s.acked || m == e.m;
    }
  }

  lemma {:induction false} AckFollowsLastAttempt(max: nat, s: State, es: seq<Event>, m: Msg)
    requires Inv(max, s) && Legal(max, s, es) && Exec(max, s, es).taken[m] <= 1
    ensures m in Exec(max, s, es).acked <==>
            LastAttempt(es, m) == Succeeded || (LastAttempt(es, m) == None && m in s.acked)
    decreases es
  {
    if es != [] {
      var next := Apply(max, s, es[0]);
      StepKeepsInv(max, s, es[0]);
      TakenGrows(max, next, es[1..]);
      assert s.taken[m] <= next.taken[m];
      if es[0] == HandlerErr(m) {
        HandledIsNotAcked(s, m);
      }
      AckFollowsAttempt(max, s, es[0], m);
      AckFollowsLastAttempt(max, next, es[1..], m);
    }
  }

  /** A message that was sent once is acked if and only if its last attempt returned nil. */
  lemma AckedIffLastAttemptSucceeded(max: nat, es: seq<Event>, m: Msg)
    requires Legal(max, Init, es) && Exec(max, Init, es).taken[m] == 1
    ensures m in Exec(max, Init, es).acked <==> LastAttempt(es, m) == Succeeded
  {
    AckFollowsLastAttempt(max, Init, es, m);
  }

  /** What a step sends to retry, and what it takes from there. */
  function StepSends(s: State, e: Event): seq<Msg> {
    if e.NackSend? then [e.m] else if e.LoopNack? && InDispatch(s.pc) then [s.pc.msg] else []
  }

  function StepTakes(s: State, e: Event): seq<Msg> {
    if (e.TakeRetry? || e.DrainTake?) && s.retry != [] then [s.retry[0]] else []
  }

  lemma RetryStep(max: nat, s: State, e: Event)
    requires Enabled(max, s, e)
    ensures s.retry + StepSends(s, e) == StepTakes(s, e) + Apply(max, s, e).retry
    ensures e.TakeRetry? || e.DrainTake? ==>
      Apply(max, s, e).pc.Checking? && StepTakes(s, e) == [Apply(max, s, e).pc.msg]
  {
    var r := s.retry;
    match e
    case TakeRetry => assert r == [r[0]] + r[1..];
    case DrainTake => assert r == [r[0]] + r[1..];
    case NackSend(m) => assert [] + (r + [m]) == r + [m];
    case LoopNack => assert [] + (r + [s.pc.msg]) == r + [s.pc.msg];
    case _ => assert r + [] == [] + r;
  }

  /** A queue that goes from p to q to r, with what is put in and taken out on the way. */
  lemma QueueSteps<T>(p: seq<T>, puts: seq<T>, takes: seq<T>, q: seq<T>, morePuts: seq<T>, moreTakes: seq<T>, r: seq<T>)
    requires p + puts == takes + q && q + morePuts == moreTakes + r
    ensures p + (puts + morePuts) == (takes + moreTakes) + r
  {
    ConcatAssociates(p, puts, morePuts);
    ConcatAssociates(takes, q, morePuts);
    ConcatAssociates(takes, moreTakes, r);
  }

  /** The messages a run sends to retry, and those it takes from there to dispatch them, each in order. */
  function SentToRetry(max: nat, s: State, es: seq<Event>): seq<Msg>
    requires Legal(max, s, es)
    decreases es
  {
    if es == [] then [] else StepSends(s, es[0]) + SentToRetry(max, Apply(max, s, es[0]), es[1..])
  }

  function TakenFromRetry(max: nat, s: State, es: seq<Event>): seq<Msg>
    requires Legal(max, s, es)
    decreases es
  {
    if es == [] then [] else StepTakes(s, es[0]) + TakenFromRetry(max, Apply(max, s, es[0]), es[1..])
  }

  /** Messages are handled again in the order in which they were nacked. */
  lemma {:induction false} RetryIsFirstInFirstOut(max: nat, s: State, es: seq<Event>)
    requires Legal(max, s, es)
    ensures s.retry + SentToRetry(max, s, es) == TakenFromRetry(max, s, es) + Exec(max, s, es).retry
    decreases es
  {
    if es != [] {
      var e, next := es[0], Apply(max, s, es[0]);
      RetryStep(max, s, e);
      RetryIsFirstInFirstOut(max, next, es[1..]);
      QueueSteps(s.retry, StepSends(s, e), StepTakes(s, e), next.retry,
                 SentToRetry(max, next, es[1..]), TakenFromRetry(max, next, es[1..]), Exec(max, s, es).retry);
    }
  }

  lemma {:induction false} ExecConcat(max: nat, s: State, a: seq<Event>, b: seq<Event>)
    requires Legal(max, s, a) && Legal(max, Exec(max, s, a), b)
    ensures Legal(max, s, a + b)
    ensures Exec(max, s, a + b) == Exec(max, Exec(max, s, a), b)
    ensures var p, q := Peak(max, s, a), Peak(max, Exec(max, s, a), b);
      Peak(max, s, a + b) == if p > q then p else q
    decreases a
  {
    if a == [] {
      assert a + b == b;
      PeakCoversStart(max, s, b);
    } else {
      assert (a + b)[1..] == a[1..] + b;
      ExecConcat(max, Apply(max, s, a[0]), a[1..], b);
    }
  }

  lemma PeakCoversStart(max: nat, s: State, es: seq<Event>)
    requires Legal(max, s, es)
    ensures Outstanding(s) <= Peak(max, s, es)
  {
  }
}
