/**
 * Middleware composition: core/message/middleware/chain.go, error.go and the conditional middlewares of flow.go.
 *
 * A handler is a function of the state it can reach, W, which it may change, to an outcome: it returns nil or an
 * error, or it panics.
 */
module Middlewares {
  import opened Outcomes

  type Handler<!W> = W -> (W, Outcome)
  type Middleware<!W> = Handler<W> -> Handler<W>

  // ----- the middlewares

  function AsError(v: PanicValue): Error {
    match v
    case AnError(e) => e
    case Anything(n) => PanicRecovered(n)
  }

  function ConvertPanicToError<W>(): Middleware<W> {
    (next: Handler<W>) => (w: W) =>
      var (w', o) := next(w);
      if o.Panic? then (w', Err(AsError(o.v))) else (w', o)
  }

  /** An error handler may change the state, and may panic. */
  function OnError<W>(errHandler: (W, Error) -> (W, Outcome)): Middleware<W> {
    (next: Handler<W>) => (w: W) =>
      var (w', o) := next(w);
      if !o.Err? then (w', o) else
        var (w'', o') := errHandler(w', o.e);
        (w'', if o'.Panic? then o' else o)
  }

  /** A condition may change the state, as one that remembers which messages it has seen, and may panic. */
  datatype Decision = Applies | Passes | Panics(v: PanicValue)

  type Condition<!W> = W -> (W, Decision)

  function ConditionalExecute<W>(shouldExec: Condition<W>, exec: Handler<W>): Middleware<W> {
    (next: Handler<W>) => (w: W) =>
      var (w', d) := shouldExec(w);
      match d
      case Applies => exec(w')
      case Passes => next(w')
      case Panics(v) => (w', Panic(v))
  }

  function ConditionalSkip<W>(shouldSkip: Condition<W>): Middleware<W> {
    ConditionalExecute(shouldSkip, w => (w, Ok))
  }

  // ----- chains

  /** The meaning of a chain: the first middleware is the outermost. */
  function WrapAll<W>(ms: seq<Middleware<W>>, h: Handler<W>): Handler<W> {
    if ms == [] then h else ms[0](WrapAll(ms[1..], h))
  }

  class Chain<!W> {
    var middlewares: seq<Middleware<W>>

    constructor ()
      ensures middlewares == []
    {
      middlewares := [];
    }

    method Add(middleware: Middleware<W>)
      modifies this
      ensures middlewares == old(middlewares) + [middleware]
    {
      middlewares := middlewares + [middleware];
    }

    method Wrap(h: Handler<W>) returns (final: Handler<W>)
      ensures final == WrapAll(middlewares, h)
    {
      final := h;
      var i := |middlewares| - 1;
      while i >= 0
        invariant -1 <= i < |middlewares|
        invariant final == WrapAll(middlewares[i + 1..], h)
      {
        assert middlewares[i..][1..] == middlewares[i + 1..];
        final := middlewares[i](final);
        i := i - 1;
      }
    }
  }

  /** Wrapping with two chains one after the other is wrapping with the inner one, and then with the outer one. */
  lemma {:induction false} WrapConcat<W>(outer: seq<Middleware<W>>, inner: seq<Middleware<W>>, h: Handler<W>)
    ensures WrapAll(outer + inner, h) == WrapAll(outer, WrapAll(inner, h))
  {
    if outer == [] {
      assert outer + inner == inner;
    } else {
      assert (outer + inner)[1..] == outer[1..] + inner;
      WrapConcat(outer[1..], inner, h);
    }
  }

  /** A middleware added last is the one next to the handler. */
  lemma AddedLastIsInnermost<W>(ms: seq<Middleware<W>>, m: Middleware<W>, h: Handler<W>)
    ensures WrapAll(ms + [m], h) == WrapAll(ms, m(h))
  {
    WrapConcat(ms, [m], h);
    assert WrapAll([m], h) == m(h) by {
      assert [m][1..] == [];
    }
  }

  // ----- what the two error middlewares do to a handler

  /** ConvertPanicToError changes nothing but a panic, which becomes its error, or one that holds its value. */
  lemma ConvertOnlyChangesPanics<W>(h: Handler<W>, w: W)
    ensures var (w', o) := h(w);
      WrapAll([ConvertPanicToError()], h)(w) ==
        match o
        case Panic(AnError(e)) => (w', Err(e))
        case Panic(Anything(n)) => (w', Err(PanicRecovered(n)))
        case _ => h(w)
  {
    var convert: Middleware<W> := ConvertPanicToError();
    assert WrapAll([convert], h) == convert(h) by {
      assert [convert][1..] == [];
    }
  }

  /** OnError calls its function exactly when the handler returns an error, with that error, which it returns. */
  lemma OnErrorKeepsTheOutcome<W>(errHandler: (W, Error) -> (W, Outcome), h: Handler<W>, w: W)
    ensures var (w', o) := h(w);
      WrapAll([OnError(errHandler)], h)(w) ==
        match o
        case Err(e) =>
          var (w'', o') := errHandler(w', e);
          (w'', if o'.Panic? then o' else Err(e))
        case _ => (w', o)
  {
    var f: Middleware<W> := OnError(errHandler);
    assert WrapAll([f], h) == f(h) by {
      assert [f][1..] == [];
    }
  }

  // ----- panics

  ghost predicate NeverPanics<W(!new)>(h: Handler<W>) {
    forall w :: !h(w).1.Panic?
  }

  /** The middleware does not panic on its own. */
  ghost predicate AddsNoPanic<W(!new)>(m: Middleware<W>) {
    forall h :: NeverPanics(h) ==> NeverPanics(m(h))
  }

  lemma {:induction false} OuterKeepNeverPanics<W(!new)>(ms: seq<Middleware<W>>, h: Handler<W>)
    requires forall i | 0 <= i < |ms| :: AddsNoPanic(ms[i])
    requires NeverPanics(h)
    ensures NeverPanics(WrapAll(ms, h))
  {
    if ms != [] {
      OuterKeepNeverPanics(ms[1..], h);
    }
  }

  lemma BuiltInsAddNoPanic<W(!new)>(
    shouldExec: Condition<W>, exec: Handler<W>, errHandler: (W, Error) -> (W, Outcome))
    requires NeverPanics(exec)
    requires forall w :: !shouldExec(w).1.Panics?
    requires forall w, e :: !errHandler(w, e).1.Panic?
    ensures AddsNoPanic<W>(ConvertPanicToError())
    ensures AddsNoPanic(ConditionalExecute(shouldExec, exec)) && AddsNoPanic(ConditionalSkip(shouldExec))
    ensures AddsNoPanic(OnError(errHandler))
  {
  }

  /**
   * With ConvertPanicToError in the chain, and nothing outside it that panics on its own, Handle never panics,
   * whatever the handler and the middlewares inside do; it acks if and only if the composed handler returned nil.
   */
  lemma ConvertedChainNeverPanics<W(!new)>(outer: seq<Middleware<W>>, inner: seq<Middleware<W>>, h: Handler<W>, w: W)
    requires forall i | 0 <= i < |outer| :: AddsNoPanic(outer[i])
    ensures var o := WrapAll(outer + [ConvertPanicToError()] + inner, h)(w).1;
      && !HandleOutcome(o).repanics
      && (HandleOutcome(o).acked <==> o == Ok)
      && HandleOutcome(o).nacked == !HandleOutcome(o).acked
  {
    var convert: Middleware<W> := ConvertPanicToError();
    var rest := WrapAll(inner, h);
    WrapConcat(outer + [convert], inner, h);
    AddedLastIsInnermost(outer, convert, rest);
    assert NeverPanics(convert(rest));
    OuterKeepNeverPanics(outer, convert(rest));
  }

  /**
   * With ConvertPanicToError alone, or outermost around any chain, the message is acked if and only if what is inside
   * returned nil, and is nacked and no panic goes on if it failed or panicked.
   */
  lemma ConvertedIsAckedIff<W>(inner: seq<Middleware<W>>, h: Handler<W>, w: W)
    ensures var o := WrapAll([ConvertPanicToError()] + inner, h)(w).1;
      && (HandleOutcome(o).acked <==> WrapAll(inner, h)(w).1 == Ok)
      && HandleOutcome(o).nacked == !HandleOutcome(o).acked && !HandleOutcome(o).repanics
  {
    WrapConcat([ConvertPanicToError()], inner, h);
    ConvertOnlyChangesPanics(WrapAll(inner, h), w);
  }

  /**
   * The place of ConvertPanicToError matters for OnError: outside it, the error handler sees a panic as an error;
   * inside it, the error handler is not called.
   */
  lemma OnErrorSeesPanicsOnlyOutside<W>(errHandler: (W, Error) -> (W, Outcome), h: Handler<W>, w: W)
    requires h(w).1.Panic?
    ensures var (w', o) := h(w);
      && WrapAll([OnError(errHandler), ConvertPanicToError()], h)(w) ==
           (var (w'', o') := errHandler(w', AsError(o.v)); (w'', if o'.Panic? then o' else Err(AsError(o.v))))
      && WrapAll([ConvertPanicToError(), OnError(errHandler)], h)(w) == (w', Err(AsError(o.v)))
  {
    var f, c: Middleware<W> := OnError(errHandler), ConvertPanicToError();
    assert WrapAll([f, c], h) == f(c(h)) by {
      assert [f, c][1..] == [c] && [c][1..] == [];
      assert WrapAll([c], h) == c(h);
    }
    assert WrapAll([c, f], h) == c(f(h)) by {
      assert [c, f][1..] == [f] && [f][1..] == [];
      assert WrapAll([f], h) == f(h);
    }
  }

  function Conditionals<W>(conds: seq<Condition<W>>, execs: seq<Handler<W>>): seq<Middleware<W>>
    requires |conds| == |execs|
  {
    if conds == [] then [] else
      [ConditionalExecute(conds[0], execs[0])] + Conditionals(conds[1..], execs[1..])
  }

  /** The state after the first k conditions were asked, one after the other. */
  function Asked<W>(conds: seq<Condition<W>>, w: W, k: nat): W
    requires k <= |conds|
  {
    if k == 0 then w else conds[k - 1](Asked(conds, w, k - 1)).0
  }

  /** What condition k says when it is asked after the ones before it. */
  function DecisionAt<W>(conds: seq<Condition<W>>, w: W, k: nat): Decision
    requires k < |conds|
  {
    conds[k](Asked(conds, w, k)).1
  }

  lemma {:induction false} AskedRest<W>(conds: seq<Condition<W>>, w: W, k: nat)
    requires 0 < k <= |conds|
    ensures Asked(conds, w, k) == Asked(conds[1..], conds[0](w).0, k - 1)
  {
    if k > 1 {
      AskedRest(conds, w, k - 1);
      assert conds[1..][k - 2] == conds[k - 1];
    } else {
      assert Asked(conds, w, 0) == w;
    }
  }

  /**
   * In a chain of conditions each is asked in turn, in the state the ones before it left, up to the first that does
   * not pass. If that one applies its function runs, and if it panics nothing does; the handler runs only if all pass.
   */
  lemma {:induction false} FirstConditionDecides<W>(
    conds: seq<Condition<W>>, execs: seq<Handler<W>>, h: Handler<W>, w: W, k: nat)
    requires |conds| == |execs| && k <= |conds|
    requires forall i | 0 <= i < k :: DecisionAt(conds, w, i).Passes?
    requires k < |conds| ==> !DecisionAt(conds, w, k).Passes?
    ensures WrapAll(Conditionals(conds, execs), h)(w) ==
            if k == |conds| then h(Asked(conds, w, k))
            else match DecisionAt(conds, w, k)
              case Panics(v) => (Asked(conds, w, k + 1), Panic(v))
              case _ => execs[k](Asked(conds, w, k + 1))
  {
    if conds != [] {
      assert Conditionals(conds, execs)[1..] == Conditionals(conds[1..], execs[1..]);
      assert DecisionAt(conds, w, 0) == conds[0](w).1 && Asked(conds, w, 1) == conds[0](w).0;
      if k > 0 {
        var rest, w' := conds[1..], conds[0](w).0;
        forall i | 0 <= i < |rest| ensures DecisionAt(rest, w', i) == DecisionAt(conds, w, i + 1) {
          AskedRest(conds, w, i + 1);
        }
        AskedRest(conds, w, k);
        if k < |conds| {
          AskedRest(conds, w, k + 1);
        }
        FirstConditionDecides(rest, execs[1..], h, w', k - 1);
      }
    }
  }

  /** A message that is skipped is acked in the state the condition left, and nothing inside the condition runs. */
  lemma SkippedIsAcked<W>(shouldSkip: Condition<W>, inner: seq<Middleware<W>>, h: Handler<W>, w: W)
    ensures var (w', d) := shouldSkip(w);
      var (w'', o) := WrapAll([ConditionalSkip(shouldSkip)] + inner, h)(w);
      match d
      case Applies => w'' == w' && HandleOutcome(o).acked
      case Passes => (w'', o) == WrapAll(inner, h)(w')
      case Panics(_) => w'' == w' && HandleOutcome(o).nacked && HandleOutcome(o).repanics
  {
    assert ([ConditionalSkip(shouldSkip)] + inner)[1..] == inner;
  }
}
