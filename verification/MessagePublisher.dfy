/**
 * MessagePublisher (core/publisher/publisher.go) as one goroutine runs it: Publish, getPublisher and Close over the
 * publishers map and the closed flag. Each call is one operation of the atomic map of PublisherCacheRefinement.
 */
module MessagePublisher {
  import opened Wrappers
  import opened PublisherCache
  import opened PublisherCacheRefinement
  import opened Sequences
  import M = Messages

  /** What the functions the publisher was configured with, and the destination publisher, do during one Publish. */
  datatype Environment = Environment(
    route: Destination, routeFails: Option<Error>, creationFails: Option<Error>,
    marshalFails: Option<Error>, publishFails: Option<Error>, generatedID: string)

  datatype PublishResult = Published(via: Pub) | PublisherClosed | Failed(e: Error)

  /** The error of closing a publisher, if it fails. */
  function ErrorOf(closeError: map<Pub, Error>, p: Pub): seq<Error> {
    if p in closeError then [closeError[p]] else []
  }

  /** The errors of closing these publishers one after the other. */
  function ErrorsOf(closeError: map<Pub, Error>, order: seq<Pub>): seq<Error> {
    if order == [] then [] else ErrorOf(closeError, order[0]) + ErrorsOf(closeError, order[1..])
  }

  lemma {:induction false} ErrorsOfAppend(closeError: map<Pub, Error>, order: seq<Pub>, p: Pub)
    ensures ErrorsOf(closeError, order + [p]) == ErrorsOf(closeError, order) + ErrorOf(closeError, p)
  {
    if order == [] {
      assert [] + [p] == [p];
    } else {
      assert (order + [p])[1..] == order[1..] + [p];
      ErrorsOfAppend(closeError, order[1..], p);
      ConcatAssociates(ErrorOf(closeError, order[0]), ErrorsOf(closeError, order[1..]), ErrorOf(closeError, p));
    }
  }

  /** The publishers among these that fail to close with an error. */
  function FailingWith(closeError: map<Pub, Error>, pubs: set<Pub>, e: Error): set<Pub> {
    set p | p in pubs && p in closeError && closeError[p] == e
  }

  /** The errors are those of the publishers that fail, each as often as there are such publishers. */
  lemma {:induction false} ErrorsAreThoseOf(closeError: map<Pub, Error>, order: seq<Pub>, pubs: set<Pub>, e: Error)
    requires multiset(order) == multiset(pubs)
    ensures multiset(ErrorsOf(closeError, order))[e] == |FailingWith(closeError, pubs, e)|
    decreases |order|
  {
    if order == [] {
      assert |pubs| == |multiset(pubs)| == 0;
      assert FailingWith(closeError, pubs, e) == {};
    } else {
      var p, rest := order[0], order[1..];
      assert order == [p] + rest;
      assert multiset(order)[p] == 1 + multiset(rest)[p];
      assert p in pubs;
      forall q ensures multiset(rest)[q] == multiset(pubs - {p})[q] {
        assert multiset(order)[q] == multiset{p}[q] + multiset(rest)[q];
      }
      assert multiset(rest) == multiset(pubs - {p});
      ErrorsAreThoseOf(closeError, rest, pubs - {p}, e);
      var fails := FailingWith(closeError, pubs, e);
      assert FailingWith(closeError, pubs - {p}, e) == fails - {p};
    }
  }

  /** The publishers that were created. */
  function AllCreated(n: nat): set<Pub> {
    set p | p in AllPubs(n)
  }

  lemma AllCreatedOnce(n: nat)
    ensures multiset(AllCreated(n)) == AllPubs(n)
  {
    forall p: nat ensures multiset(AllCreated(n))[p] == AllPubs(n)[p] {
      AllPubsCount(n, p);
    }
  }

  lemma ClosedAll(created: seq<Destination>, closes: multiset<Pub>)
    requires ClosedBut(created, closes, {})
    ensures closes == AllPubs(|created|)
  {
    forall p: nat {
      AllPubsCount(|created|, p);
    }
  }

  class Publisher {
    var publishers: map<Destination, Pub>
    var closed: bool
    var created: seq<Destination>
    var closes: multiset<Pub>
    var failures: seq<Error>

    function View(): Abs
      reads this
    {
      Abs(publishers, closed, created, closes, failures)
    }

    /** While open, the map holds each created publisher once; after Close it is empty. */
    ghost predicate Valid()
      reads this
    {
      && (!closed ==>
            && closes == multiset{} && failures == []
            && (forall p: nat | p < |created| :: created[p] in publishers && publishers[created[p]] == p)
            && (forall d | d in publishers :: publishers[d] < |created| && created[publishers[d]] == d))
      && (closed ==> publishers == map[] && closes == AllPubs(|created|))
    }

    constructor ()
      ensures Valid() && View() == AbsInit
    {
      publishers, closed, created, closes, failures := map[], false, [], multiset{}, [];
    }

    method GetPublisher(dest: Destination, creationFails: Option<Error>) returns (ret: Ret)
      requires Valid()
      modifies this
      ensures Valid()
      ensures AbsAllowed(old(View()), Get(dest), ret) && View() == AbsApply(old(View()), Get(dest), ret)
      ensures ret.CreationFailed? <==> !old(closed) && dest !in old(publishers) && creationFails.Some?
      ensures ret.CreationFailed? ==> creationFails == Some(ret.e)
      ensures ret.Got? ==> dest in publishers && publishers[dest] == ret.p
    {
      if closed {
        return ErrClosed;
      }
      if dest in publishers {
        return Got(publishers[dest]);
      }
      if creationFails.Some? {
        return CreationFailed(creationFails.value);
      }
      ret := Got(|created|);
      publishers := publishers[dest := |created|];
      created := created + [dest];
    }

    /**
     * closeError says which destination publishers fail to close, and how. Every one of them is closed even so, in
     * some order. The errors that are joined are exactly those of the publishers that fail.
     */
    method Close(closeError: map<Pub, Error>) returns (ret: Ret)
      requires Valid()
      modifies this
      ensures Valid() && closed
      ensures AbsAllowed(old(View()), Op.Close, ret) && View() == AbsApply(old(View()), Op.Close, ret)
      ensures old(closed) ==> ret == Joined([])
      ensures ret.Joined?
      ensures !old(closed) ==>
        forall e :: multiset(ret.errs)[e] == |FailingWith(closeError, AllCreated(|created|), e)|
    {
      if closed {
        return Joined([]);
      }
      closed := true;
      var errs;
      ghost var order;
      errs, order := CloseEach(closeError);
      publishers := map[];
      failures := errs;
      ClosedAll(created, multiset(order));
      AllCreatedOnce(|created|);
      forall e ensures multiset(errs)[e] == |FailingWith(closeError, AllCreated(|created|), e)| {
        ErrorsAreThoseOf(closeError, order, AllCreated(|created|), e);
      }
      ret := Joined(errs);
    }

    /** The loop of Close. */
    method CloseEach(closeError: map<Pub, Error>) returns (errs: seq<Error>, ghost order: seq<Pub>)
      requires closes == multiset{}
      requires forall p: nat | p < |created| :: created[p] in publishers && publishers[created[p]] == p
      requires forall d | d in publishers :: publishers[d] < |created| && created[publishers[d]] == d
      modifies `closes
      ensures ClosedBut(created, multiset(order), {}) && closes == multiset(order)
      ensures errs == ErrorsOf(closeError, order)
    {
      errs, order := [], [];
      var todo := publishers.Keys;
      while todo != {}
        invariant todo <= publishers.Keys
        invariant ClosedBut(created, multiset(order), todo)
        invariant closes == multiset(order) && errs == ErrorsOf(closeError, order)
        decreases todo
      {
        var d :| d in todo;
        var p := publishers[d];
        ClosedOneMore(created, multiset(order), todo, p);
        ErrorsOfAppend(closeError, order, p);
        order := order + [p];
        todo := todo - {d};
        closes := closes + multiset{p};
        if p in closeError {
          errs := errs + [closeError[p]];
        }
      }
    }

    /** The message gets the generated ID, if there is one, only when it was published. */
    method Publish(msg: M.Message, env: Environment) returns (r: PublishResult)
      requires Valid()
      modifies this, msg`id
      ensures Valid() && closed == old(closed)
      ensures r.Published? <==> env.routeFails == env.marshalFails == env.publishFails == None && !old(closed) &&
                                (env.route in old(publishers) || env.creationFails == None)
      ensures r.Published? ==> env.route in publishers && publishers[env.route] == r.via
      ensures msg.id == if r.Published? && env.generatedID != "" then env.generatedID else old(msg.id)
      ensures env.routeFails.Some? ==> View() == old(View()) && r == Failed(env.routeFails.value)
      ensures env.routeFails.None? && old(closed) ==> View() == old(View()) && r == PublisherClosed
      ensures env.routeFails.None? && !old(closed) ==>
        var creates := env.route !in old(publishers) && env.creationFails.None?;
        && created == old(created) + (if creates then [env.route] else [])
        && (r.Failed? ==>
              var first :=
                if env.route !in old(publishers) && env.creationFails.Some? then env.creationFails
                else if env.marshalFails.Some? then env.marshalFails else env.publishFails;
              first == Some(r.e))
    {
      if env.routeFails.Some? {
        return Failed(env.routeFails.value);
      }
      var ret := GetPublisher(env.route, env.creationFails);
      if ret.ErrClosed? {
        return PublisherClosed;
      }
      if ret.CreationFailed? {
        return Failed(ret.e);
      }
      if env.marshalFails.Some? {
        return Failed(env.marshalFails.value);
      }
      if env.publishFails.Some? {
        return Failed(env.publishFails.value);
      }
      if env.generatedID != "" {
        msg.id := env.generatedID;
      }
      r := Published(ret.p);
    }
  }
}
