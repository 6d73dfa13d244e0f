/**
 * The sweep of the pending list (redis/subscriber.go): each iteration of receive claims from where the last one
 * stopped, and starts again at "0-0" when the end of the list was reached.
 *
 * Between two iterations of the sweeping consumer, other consumers and the broker may do anything that leaves the
 * watched entry pending and idle: entries are acked, entries become idle or stop being idle, and new entries are
 * delivered, which have greater IDs than all before them.
 */
module RedisSweep {
  import opened Sequences

  type Id = nat

  /** The part of a pending list from an ID on. */
  function From(p: seq<Id>, id: Id): seq<Id> {
    if p == [] then [] else if p[0] >= id then p else From(p[1..], id)
  }

  /** How many entries XAUTOCLAIM looks at: until it claimed want of them, looked at tries, or reached the end. */
  function Scanned(p: seq<Id>, idle: set<Id>, want: nat, tries: nat): nat {
    if p == [] || want == 0 || tries == 0 then 0
    else 1 + Scanned(p[1..], idle, if p[0] in idle then want - 1 else want, tries - 1)
  }

  /** The entries XAUTOCLAIM claims: the idle ones of those it looks at. */
  function Claimed(p: seq<Id>, idle: set<Id>, want: nat, tries: nat): seq<Id> {
    if p == [] || want == 0 || tries == 0 then []
    else if p[0] in idle then [p[0]] + Claimed(p[1..], idle, want - 1, tries - 1)
    else Claimed(p[1..], idle, want, tries - 1)
  }

  lemma {:induction false} ClaimedAreScanned(p: seq<Id>, idle: set<Id>, want: nat, tries: nat, x: Id)
    ensures |Claimed(p, idle, want, tries)| <= want && Scanned(p, idle, want, tries) <= |p|
    ensures x in Claimed(p, idle, want, tries) <==> x in idle && x in p[..Scanned(p, idle, want, tries)]
  {
    if p != [] && want > 0 && tries > 0 {
      var rest := if p[0] in idle then want - 1 else want;
      ClaimedAreScanned(p[1..], idle, rest, tries - 1, x);
      var k := Scanned(p[1..], idle, rest, tries - 1);
      assert p[..1 + k] == [p[0]] + p[1..][..k];
    }
  }

  lemma {:induction false} ClaimedIsThere(p: seq<Id>, idle: set<Id>, want: nat, tries: nat, x: Id)
    requires x in Claimed(p, idle, want, tries)
    ensures x in p && x in idle
  {
    if x != p[0] || p[0] !in idle {
      ClaimedIsThere(p[1..], idle, if p[0] in idle then want - 1 else want, tries - 1, x);
    }
  }

  lemma {:induction false} ClaimedInOrder(p: seq<Id>, idle: set<Id>, want: nat, tries: nat)
    requires Increasing(p)
    ensures Increasing(Claimed(p, idle, want, tries)) && |Claimed(p, idle, want, tries)| <= want
  {
    if p != [] && want > 0 && tries > 0 {
      var left := if p[0] in idle then want - 1 else want;
      var rest := Claimed(p[1..], idle, left, tries - 1);
      ClaimedInOrder(p[1..], idle, left, tries - 1);
      forall i | 0 <= i < |rest| ensures rest[i] > p[0] {
        ClaimedIsThere(p[1..], idle, left, tries - 1, rest[i]);
      }
    }
  }

  /** The pending list, the claim cursor, and the last ID that was ever delivered. */
  datatype State = State(pending: seq<Id>, cursor: Id, last: Id)

  /**
   * One iteration: which entries are idle when it claims, and which are delivered to the group and acked from there
   * to the next claim. An entry may be delivered and acked in the same iteration.
   */
  datatype Round = Round(idle: set<Id>, removed: set<Id>, added: seq<Id>)

  /** Redis looks at ten entries for each one it may claim. */
  function ScanLength(count: nat, s: State, r: Round): nat {
    Scanned(From(s.pending, s.cursor), r.idle, count, 10 * count)
  }

  /** XAUTOCLAIM claims x in this round. */
  predicate Claims(count: nat, s: State, r: Round, x: Id) {
    var p, k := From(s.pending, s.cursor), ScanLength(count, s, r);
    x in r.idle && exists i :: 0 <= i < k && i < |p| && p[i] == x
  }

  function Keep(p: seq<Id>, removed: set<Id>): seq<Id> {
    if p == [] then [] else (if p[0] in removed then [] else [p[0]]) + Keep(p[1..], removed)
  }

  function Next(count: nat, s: State, r: Round): State {
    var p, k := From(s.pending, s.cursor), ScanLength(count, s, r);
    State(Keep(s.pending + r.added, r.removed),
          if k < |p| then p[k] else 0,
          if r.added == [] then s.last else r.added[|r.added| - 1])
  }

  /** The state of the sweep after its rounds. */
  function After(count: nat, s: State, rs: seq<Round>): State
    decreases |rs|
  {
    if rs == [] then s else Next(count, After(count, s, rs[..|rs| - 1]), rs[|rs| - 1])
  }

  predicate Valid(s: State) {
    Increasing(s.pending) && (forall i | 0 <= i < |s.pending| :: 0 < s.pending[i] <= s.last)
  }

  /** x stays pending and idle, and at most the given number of entries are delivered. */
  predicate Leaves(s: State, r: Round, x: Id, most: nat) {
    && x in r.idle && x !in r.removed
    && |r.added| <= most && Increasing(r.added) && (forall i | 0 <= i < |r.added| :: r.added[i] > s.last)
  }

  /** Rounds in which x is never claimed. */
  predicate Starves(count: nat, s: State, rs: seq<Round>, x: Id, most: nat)
    decreases rs
  {
    rs == [] ||
    (Leaves(s, rs[0], x, most) && !Claims(count, s, rs[0], x) &&
     Starves(count, Next(count, s, rs[0]), rs[1..], x, most))
  }

  // ----- the measure

  /** The number of entries up to x of an increasing list. */
  function UpTo(p: seq<Id>, x: Id): nat {
    if p == [] || p[0] > x then 0 else 1 + UpTo(p[1..], x)
  }

  /** What is left to scan before x is reached, by way of the end of the list if the cursor is past x. */
  function Left(s: State, x: Id): nat {
    if s.cursor > x then |From(s.pending, s.cursor)| + 1 + UpTo(s.pending, x)
    else UpTo(From(s.pending, s.cursor), x)
  }

  lemma {:induction false} UpToIsIndex(p: seq<Id>, x: Id)
    requires Increasing(p)
    ensures UpTo(p, x) <= |p|
    ensures forall i | 0 <= i < |p| :: p[i] <= x <==> i < UpTo(p, x)
  {
    if p != [] && p[0] <= x {
      UpToIsIndex(p[1..], x);
      assert forall i | 0 < i < |p| :: p[i] == p[1..][i - 1];
    }
  }

  lemma {:induction false} FromIsSuffix(p: seq<Id>, id: Id)
    requires Increasing(p)
    ensures Increasing(From(p, id)) && |From(p, id)| <= |p| && From(p, id) == p[|p| - |From(p, id)|..]
    ensures forall i | 0 <= i < |p| :: p[i] >= id <==> i >= |p| - |From(p, id)|
  {
    if p != [] && p[0] < id {
      FromIsSuffix(p[1..], id);
      assert forall i | 0 < i < |p| :: p[i] == p[1..][i - 1];
    }
  }

  lemma {:induction false} ScanIsLong(p: seq<Id>, idle: set<Id>, want: nat, tries: nat)
    ensures Scanned(p, idle, want, tries) == |p| || Scanned(p, idle, want, tries) >= want ||
            Scanned(p, idle, want, tries) >= tries
    ensures Scanned(p, idle, want, tries) <= |p|
  {
    if p != [] && want > 0 && tries > 0 {
      ScanIsLong(p[1..], idle, if p[0] in idle then want - 1 else want, tries - 1);
    }
  }

  /** From where an iteration stopped, the rest of what it looked at is left. */
  lemma FromWithin(p: seq<Id>, id: Id, k: nat)
    requires Increasing(p) && k < |From(p, id)|
    ensures From(p, From(p, id)[k]) == From(p, id)[k..]
  {
    var h := From(p, id);
    FromIsSuffix(p, id);
    FromIsSuffix(p, h[k]);
    var at := |p| - |h| + k;
    assert p[at] == h[k];
    SuffixLength(p, h[k], at);
    assert h[k..] == p[at..];
  }

  /** The entries from p[at] on are those at at and after it. */
  lemma SuffixLength(p: seq<Id>, id: Id, at: nat)
    requires Increasing(p) && at < |p| && p[at] == id
    ensures |From(p, id)| == |p| - at
  {
    FromIsSuffix(p, id);
    assert at >= |p| - |From(p, id)|;
    if at > 0 {
      assert p[at - 1] < id;
    }
  }

  lemma UpToDrop(p: seq<Id>, x: Id, k: nat)
    requires Increasing(p) && k <= UpTo(p, x)
    ensures k <= |p| && UpTo(p[k..], x) == UpTo(p, x) - k
  {
    UpToIsIndex(p, x);
    UpToIsIndex(p[k..], x);
    var n := UpTo(p[k..], x);
    if n < |p[k..]| {
      assert p[k..][n] == p[k + n];
    }
    if n > 0 {
      assert p[k..][n - 1] == p[k + n - 1];
    }
  }

  lemma {:induction false} KeepMembers(p: seq<Id>, removed: set<Id>, y: Id)
    ensures y in Keep(p, removed) <==> y in p && y !in removed
  {
    if p != [] {
      KeepMembers(p[1..], removed, y);
      assert y in p <==> y == p[0] || y in p[1..];
    }
  }

  lemma {:induction false} KeepIsIncreasing(p: seq<Id>, removed: set<Id>)
    requires Increasing(p)
    ensures Increasing(Keep(p, removed))
  {
    if p != [] {
      var rest := Keep(p[1..], removed);
      KeepIsIncreasing(p[1..], removed);
      forall i | 0 <= i < |rest| ensures rest[i] > p[0] {
        KeepMembers(p[1..], removed, rest[i]);
        assert rest[i] in p[1..];
      }
    }
  }

  lemma {:induction false} KeepConcat(p: seq<Id>, q: seq<Id>, removed: set<Id>)
    ensures Keep(p + q, removed) == Keep(p, removed) + Keep(q, removed)
  {
    if p == [] {
      assert p + q == q;
    } else {
      assert (p + q)[1..] == p[1..] + q;
      KeepConcat(p[1..], q, removed);
    }
  }

  lemma {:induction false} UpToRemove(p: seq<Id>, removed: set<Id>, x: Id)
    requires Increasing(p)
    ensures |Keep(p, removed)| <= |p| && UpTo(Keep(p, removed), x) <= UpTo(p, x)
  {
    if p != [] {
      UpToRemove(p[1..], removed, x);
      UpToTail(p, x);
      var rest := Keep(p[1..], removed);
      assert ([p[0]] + rest)[1..] == rest;
      assert Keep(p, removed) == if p[0] in removed then rest else [p[0]] + rest;
    }
  }

  lemma UpToTail(p: seq<Id>, x: Id)
    requires Increasing(p) && p != []
    ensures UpTo(p, x) == (if p[0] <= x then 1 else 0) + UpTo(p[1..], x)
  {
    if |p| > 1 {
      assert p[1..][0] == p[1];
    }
  }

  lemma {:induction false} UpToAppend(p: seq<Id>, added: seq<Id>, x: Id)
    requires forall i | 0 <= i < |added| :: added[i] > x
    ensures UpTo(p + added, x) == UpTo(p, x)
  {
    if p == [] {
      assert p + added == added;
    } else {
      assert (p + added)[1..] == p[1..] + added;
      UpToAppend(p[1..], added, x);
    }
  }

  /** Removing entries and delivering new ones adds no more than the new ones, and none up to x. */
  lemma ChangeOfAll(p: seq<Id>, removed: set<Id>, added: seq<Id>, x: Id)
    requires Increasing(p) && forall i | 0 <= i < |added| :: added[i] > x
    ensures var q := Keep(p + added, removed); |q| <= |p| + |added| && UpTo(q, x) <= UpTo(p, x)
  {
    UpToRemove(p, removed, x);
    KeepConcat(p, added, removed);
    KeepMore(added, removed, x);
    UpToAppend(Keep(p, removed), Keep(added, removed), x);
  }

  lemma {:induction false} KeepMore(p: seq<Id>, removed: set<Id>, x: Id)
    requires forall i | 0 <= i < |p| :: p[i] > x
    ensures |Keep(p, removed)| <= |p| && forall i | 0 <= i < |Keep(p, removed)| :: Keep(p, removed)[i] > x
  {
    if p != [] {
      KeepMore(p[1..], removed, x);
    }
  }

  lemma {:induction false} FromRemove(p: seq<Id>, removed: set<Id>, id: Id)
    requires Increasing(p)
    ensures From(Keep(p, removed), id) == Keep(From(p, id), removed)
  {
    if p != [] {
      if p[0] >= id {
        var kept := Keep(p, removed);
        if kept != [] {
          KeepMembers(p, removed, kept[0]);
          assert kept[0] >= id;
        }
      } else {
        FromRemove(p[1..], removed, id);
        var rest := Keep(p[1..], removed);
        assert ([p[0]] + rest)[1..] == rest;
        assert Keep(p, removed) == if p[0] in removed then rest else [p[0]] + rest;
      }
    }
  }

  lemma {:induction false} FromAppend(p: seq<Id>, added: seq<Id>, id: Id)
    ensures exists more :: From(p + added, id) == From(p, id) + more && |more| <= |added| &&
                           (forall i | 0 <= i < |more| :: more[i] in added)
  {
    if p == [] {
      assert p + added == added;
      FromPart(added, id);
      assert From(added, id) == From(p, id) + From(added, id);
    } else {
      assert (p + added)[1..] == p[1..] + added;
      if p[0] < id {
        FromAppend(p[1..], added, id);
      }
    }
  }

  lemma {:induction false} FromPart(p: seq<Id>, id: Id)
    ensures |From(p, id)| <= |p| && forall i | 0 <= i < |From(p, id)| :: From(p, id)[i] in p
  {
    if p != [] && p[0] < id {
      FromPart(p[1..], id);
    }
  }

  /** The same for the entries from an ID on. */
  lemma ChangeFrom(p: seq<Id>, removed: set<Id>, added: seq<Id>, id: Id, x: Id)
    requires Increasing(p) && Increasing(p + added) && forall i | 0 <= i < |added| :: added[i] > x
    ensures var q := Keep(p + added, removed);
      |From(q, id)| <= |From(p, id)| + |added| && UpTo(From(q, id), x) <= UpTo(From(p, id), x)
  {
    FromRemove(p + added, removed, id);
    FromIsSuffix(p, id);
    FromAppend(p, added, id);
    var more :| From(p + added, id) == From(p, id) + more && |more| <= |added| &&
                (forall i | 0 <= i < |more| :: more[i] in added);
    ChangeOfAll(From(p, id), removed, more, x);
  }

  lemma NextIsValid(count: nat, s: State, r: Round, x: Id, most: nat)
    requires Valid(s) && x in s.pending && Leaves(s, r, x, most)
    ensures Valid(Next(count, s, r)) && x in Next(count, s, r).pending
  {
    var all := s.pending + r.added;
    KeepIsIncreasing(all, r.removed);
    var kept := Keep(all, r.removed);
    forall i | 0 <= i < |kept| ensures kept[i] in all {
      KeepMembers(all, r.removed, kept[i]);
    }
    KeepMembers(all, r.removed, x);
  }

  /** Where the next iteration starts, and what it finds there. */
  lemma NextFrom(count: nat, s: State, r: Round, x: Id, most: nat)
    requires Valid(s) && x in s.pending && Leaves(s, r, x, most)
    ensures var h, k, t := From(s.pending, s.cursor), ScanLength(count, s, r), Next(count, s, r);
      && k <= |h|
      && (k < |h| ==> |From(t.pending, h[k])| <= |h| - k + most && UpTo(From(t.pending, h[k]), x) <= UpTo(h[k..], x))
      && UpTo(From(t.pending, 0), x) <= UpTo(s.pending, x) && UpTo(t.pending, x) <= UpTo(s.pending, x)
  {
    var p, h, k := s.pending, From(s.pending, s.cursor), ScanLength(count, s, r);
    ScanIsLong(h, r.idle, count, 10 * count);
    ChangeFrom(p, r.removed, r.added, 0, x);
    ChangeOfAll(p, r.removed, r.added, x);
    if k < |h| {
      ChangeFrom(p, r.removed, r.added, h[k], x);
      FromWithin(p, s.cursor, k);
    }
  }

  lemma FromHas(p: seq<Id>, id: Id, x: Id)
    requires Increasing(p)
    ensures forall i | 0 <= i < |From(p, id)| :: From(p, id)[i] >= id
    ensures x in p && id <= x ==> x in From(p, id)
  {
    FromIsSuffix(p, id);
    if x in p && id <= x {
      var i :| 0 <= i < |p| && p[i] == x;
      assert From(p, id)[i - (|p| - |From(p, id)|)] == x;
    }
  }

  /** What is left of a list before x when x was not among the first k entries. */
  lemma NotReached(h: seq<Id>, x: Id, k: nat)
    requires Increasing(h) && x in h && k <= |h| && forall i | 0 <= i < k :: h[i] != x
    ensures k < |h| && h[k] <= x && UpTo(h[k..], x) == UpTo(h, x) - k
  {
    var i :| 0 <= i < |h| && h[i] == x;
    UpToIsIndex(h, x);
    UpToDrop(h, x, k);
  }

  /** An iteration that does not claim x looks at a full batch, or at all that is left before it starts again. */
  lemma UnclaimedScan(count: nat, s: State, r: Round, x: Id)
    requires Valid(s) && x in s.pending && x in r.idle && !Claims(count, s, r, x)
    ensures var h, k := From(s.pending, s.cursor), ScanLength(count, s, r);
      && (k == |h| || k >= count)
      && (forall i | 0 <= i < |h| :: h[i] >= s.cursor)
      && (s.cursor <= x ==> k < |h| && h[k] <= x && UpTo(h[k..], x) == UpTo(h, x) - k)
  {
    var h, k := From(s.pending, s.cursor), ScanLength(count, s, r);
    ScanIsLong(h, r.idle, count, 10 * count);
    FromIsSuffix(s.pending, s.cursor);
    FromHas(s.pending, s.cursor, x);
    if s.cursor <= x {
      NotReached(h, x, k);
    }
  }

  /** An iteration that does not claim x brings the sweep closer to it. */
  lemma LeftShrinks(count: nat, s: State, r: Round, x: Id, most: nat)
    requires most < count && Valid(s) && x in s.pending && Leaves(s, r, x, most) && !Claims(count, s, r, x)
    ensures Left(Next(count, s, r), x) < Left(s, x)
  {
    NextFrom(count, s, r, x, most);
    UnclaimedScan(count, s, r, x);
  }

  /**
   * Sweep progress: if fewer entries are delivered per iteration than one claim may take, an entry that stays pending
   * and idle is claimed after at most as many iterations as are left to scan.
   */
  lemma {:induction false} SweepReaches(count: nat, s: State, rs: seq<Round>, x: Id, most: nat)
    requires most < count && Valid(s) && x in s.pending && Starves(count, s, rs, x, most)
    ensures |rs| <= Left(s, x) <= |s.pending| + 1
    decreases rs
  {
    FromIsSuffix(s.pending, s.cursor);
    UpToIsIndex(s.pending, x);
    UpToIsIndex(From(s.pending, s.cursor), x);
    if rs != [] {
      NextIsValid(count, s, rs[0], x, most);
      LeftShrinks(count, s, rs[0], x, most);
      SweepReaches(count, Next(count, s, rs[0]), rs[1..], x, most);
    }
  }

  // ----- a sweep that never comes back

  /** The IDs a, a + 1, .., a + n - 1. */
  function Run(a: Id, n: nat): seq<Id> {
    seq(n, i => a + i)
  }

  /** The same IDs as a set. */
  function Span(a: Id, n: nat): set<Id> {
    set x | x in Run(a, n)
  }

  lemma InSpan(a: Id, n: nat)
    ensures forall x: nat :: x in Span(a, n) <==> a <= x < a + n
  {
    forall x: nat | a <= x < a + n ensures x in Run(a, n) {
      assert Run(a, n)[x - a] == x;
    }
  }

  /** Entry 1 waits behind the cursor; two batches of n idle entries are ahead of it. */
  function Ahead(a: Id, n: nat): State
    requires n > 0
  {
    State([1] + Run(a, 2 * n), a, a + 2 * n - 1)
  }

  /** The claimed batch is acked, and as many entries are delivered. */
  function Chase(a: Id, n: nat): Round {
    Round({1} + Span(a, 2 * n), Span(a, n), Run(a + 2 * n, n))
  }

  lemma {:induction false} ScanOfIdle(p: seq<Id>, idle: set<Id>, want: nat, tries: nat)
    requires want <= |p| && want <= tries && forall i | 0 <= i < want :: p[i] in idle
    ensures Scanned(p, idle, want, tries) == want
  {
    if want > 0 {
      ScanOfIdle(p[1..], idle, want - 1, tries - 1);
    }
  }

  lemma {:induction false} KeepAllOrNone(p: seq<Id>, removed: set<Id>)
    ensures (forall i | 0 <= i < |p| :: p[i] in removed) ==> Keep(p, removed) == []
    ensures (forall i | 0 <= i < |p| :: p[i] !in removed) ==> Keep(p, removed) == p
  {
    if p != [] {
      KeepAllOrNone(p[1..], removed);
    }
  }

  lemma AheadIsValid(a: Id, n: nat)
    requires n > 0 && a >= 2
    ensures Valid(Ahead(a, n)) && 1 in Ahead(a, n).pending && From(Ahead(a, n).pending, a) == Run(a, 2 * n)
  {
    var p := Ahead(a, n).pending;
    assert p[0] == 1 && p[1..] == Run(a, 2 * n) && Run(a, 2 * n)[0] == a;
  }

  /** The scan takes the batch at the cursor, and stops before the next one. */
  lemma ChaseScans(a: Id, n: nat)
    requires n > 0 && a >= 2
    ensures ScanLength(n, Ahead(a, n), Chase(a, n)) == n
  {
    AheadIsValid(a, n);
    InSpan(a, 2 * n);
    ScanOfIdle(Run(a, 2 * n), {1} + Span(a, 2 * n), n, 10 * n);
  }

  lemma KeepRun(a: Id, n: nat, b: Id, m: nat)
    ensures Keep(Run(a, n), Span(a, n)) == []
    ensures b >= a + n || b + m <= a ==> Keep(Run(b, m), Span(a, n)) == Run(b, m)
  {
    InSpan(a, n);
    KeepAllOrNone(Run(a, n), Span(a, n));
    KeepAllOrNone(Run(b, m), Span(a, n));
  }

  /** Of the two batches ahead, the first one is removed. */
  lemma ChaseKeeps(a: Id, n: nat)
    requires n > 0 && a >= 2
    ensures Keep(Ahead(a, n).pending + Run(a + 2 * n, n), Span(a, n)) == [1] + Run(a + n, 2 * n)
  {
    assert Ahead(a, n).pending + Run(a + 2 * n, n) == Run(1, 1) + (Run(a, n) + Run(a + n, 2 * n));
    KeepConcat(Run(1, 1), Run(a, n) + Run(a + n, 2 * n), Span(a, n));
    KeepConcat(Run(a, n), Run(a + n, 2 * n), Span(a, n));
    KeepRun(a, n, 1, 1);
    KeepRun(a, n, a + n, 2 * n);
  }

  lemma ChaseOnce(a: Id, n: nat, most: nat)
    requires 0 < n <= most && a >= 2
    ensures Leaves(Ahead(a, n), Chase(a, n), 1, most) && !Claims(n, Ahead(a, n), Chase(a, n), 1)
    ensures Next(n, Ahead(a, n), Chase(a, n)) == Ahead(a + n, n)
  {
    AheadIsValid(a, n);
    ChaseScans(a, n);
    ChaseKeeps(a, n);
    InSpan(a, n);
    assert 1 in Ahead(a, n).pending;
  }

  function ChaseRounds(a: Id, n: nat, len: nat): seq<Round>
    decreases len
  {
    if len == 0 then [] else [Chase(a, n)] + ChaseRounds(a + n, n, len - 1)
  }

  lemma {:induction false} ChaseForever(a: Id, n: nat, most: nat, len: nat)
    requires 0 < n <= most && a >= 2
    ensures |ChaseRounds(a, n, len)| == len && Starves(n, Ahead(a, n), ChaseRounds(a, n, len), 1, most)
    decreases len
  {
    if len > 0 {
      ChaseOnce(a, n, most);
      ChaseForever(a + n, n, most, len - 1);
      assert ChaseRounds(a, n, len)[1..] == ChaseRounds(a + n, n, len - 1);
    }
  }

  // ----- how the sweep gets there from an empty pending list

  const Empty := State([], 0, 0)

  /** Entries that are new to the group. */
  predicate New(last: Id, more: seq<Id>) {
    Increasing(more) && forall i | 0 <= i < |more| :: more[i] > last
  }

  /** A round in which at most so many entries are delivered, all of them new. */
  predicate Delivers(s: State, r: Round, most: nat) {
    |r.added| <= most && New(s.last, r.added)
  }

  /** Rounds of a sweep from an empty pending list. */
  predicate Deliveries(count: nat, rs: seq<Round>, most: nat)
    decreases |rs|
  {
    rs == [] ||
    var before := rs[..|rs| - 1];
    Deliveries(count, before, most) && Delivers(After(count, Empty, before), rs[|rs| - 1], most)
  }

  /** The state is one that a sweep from an empty pending list can come to. */
  ghost predicate Reachable(count: nat, s: State, most: nat) {
    exists rs :: Deliveries(count, rs, most) && After(count, Empty, rs) == s
  }

  lemma NextIsReachable(count: nat, s: State, r: Round, most: nat)
    requires Reachable(count, s, most) && Delivers(s, r, most)
    ensures Reachable(count, Next(count, s, r), most)
  {
    var rs :| Deliveries(count, rs, most) && After(count, Empty, rs) == s;
    var qs := rs + [r];
    assert qs[..|rs|] == rs;
    assert Deliveries(count, qs, most) && After(count, Empty, qs) == Next(count, s, r);
  }

  /** The first n entries are pending, and the next claim starts at 0-0. */
  function Start(n: nat): State {
    State(Run(1, n), 0, n)
  }

  lemma {:induction false} ScanOfNoneIdle(p: seq<Id>, want: nat, tries: nat)
    requires want > 0 && |p| <= tries
    ensures Scanned(p, {}, want, tries) == |p|
  {
    if p != [] {
      ScanOfNoneIdle(p[1..], want, tries - 1);
    }
  }

  lemma FromZero(p: seq<Id>)
    ensures From(p, 0) == p
  {
  }

  /** Nothing is idle, and k entries are delivered. */
  lemma QuietRound(count: nat, n: nat, k: nat)
    requires n <= 10 * count && 0 < k && count > 0
    ensures Next(count, Start(n), Round({}, {}, Run(n + 1, k))) == Start(n + k)
  {
    FromZero(Run(1, n));
    ScanOfNoneIdle(Run(1, n), count, 10 * count);
    assert Run(1, n) + Run(n + 1, k) == Run(1, n + k);
    KeepAllOrNone(Run(1, n + k), {});
  }

  /** All but entry 1 of a full claim are idle, and are acked: the cursor is past entry 1. */
  function PassingRound(n: nat): Round {
    Round(Span(2, n), Span(2, n), Run(2 * n + 2, n))
  }

  lemma PassingLeadsAhead(n: nat)
    requires n > 0
    ensures Next(n, Start(2 * n + 1), PassingRound(n)) == Ahead(n + 2, n)
  {
    var p, idle := Run(1, 2 * n + 1), Span(2, n);
    InSpan(2, n);
    FromZero(p);
    assert p[1..] == Run(2, 2 * n);
    ScanOfIdle(p[1..], idle, n, 10 * n - 1);
    assert p[1 + n] == n + 2;
    PassingKeeps(n);
  }

  lemma PassingKeeps(n: nat)
    ensures Keep(Run(1, 2 * n + 1) + Run(2 * n + 2, n), Span(2, n)) == [1] + Run(n + 2, 2 * n)
  {
    assert Run(1, 2 * n + 1) + Run(2 * n + 2, n) == Run(1, 1) + (Run(2, n) + Run(n + 2, 2 * n));
    KeepConcat(Run(1, 1), Run(2, n) + Run(n + 2, 2 * n), Span(2, n));
    KeepConcat(Run(2, n), Run(n + 2, 2 * n), Span(2, n));
    KeepRun(2, n, 1, 1);
    KeepRun(2, n, n + 2, 2 * n);
  }

  lemma StartIsReachable(count: nat, n: nat, k: nat, most: nat)
    requires Reachable(count, Start(n), most) && n <= 10 * count && 0 < k <= most && count > 0
    ensures Reachable(count, Start(n + k), most)
  {
    QuietRound(count, n, k);
    NextIsReachable(count, Start(n), Round({}, {}, Run(n + 1, k)), most);
  }

  lemma NothingIsReachable(count: nat, most: nat)
    ensures Reachable(count, Start(0), most)
  {
    assert Deliveries(count, [], most) && After(count, Empty, []) == Empty == Start(0);
  }

  lemma AheadIsReachable(n: nat, most: nat)
    requires 0 < n <= most
    ensures Reachable(n, Ahead(n + 2, n), most)
  {
    NothingIsReachable(n, most);
    StartIsReachable(n, 0, n, most);
    StartIsReachable(n, n, n, most);
    StartIsReachable(n, n + n, 1, most);
    assert n + n + 1 == 2 * n + 1;
    PassingLeadsAhead(n);
    NextIsReachable(n, Start(2 * n + 1), PassingRound(n), most);
  }

  /** A run of the sweep in which x is pending and idle all the time, and is not claimed. */
  ghost predicate Unclaimed(count: nat, s: State, rs: seq<Round>, x: Id, most: nat) {
    Valid(s) && Reachable(count, s, most) && x in s.pending && Starves(count, s, rs, x, most)
  }

  /** Entry 1 is not claimed in any number of iterations. */
  lemma AheadStarves(n: nat, most: nat, len: nat)
    requires 0 < n <= most
    ensures Unclaimed(n, Ahead(n + 2, n), ChaseRounds(n + 2, n, len), 1, most) && |ChaseRounds(n + 2, n, len)| == len
  {
    AheadIsValid(n + 2, n);
    AheadIsReachable(n, most);
    ChaseForever(n + 2, n, most, len);
  }

  /**
   * An entry that stays pending and idle is claimed within one iteration more than the pending list is long, whatever
   * the others do, in every sweep that began with an empty list, if and only if fewer entries are delivered per
   * iteration than one claim may take. Otherwise the list can keep growing in front of the cursor, which then never
   * comes back to the entry.
   */
  lemma SweepReachesIff(count: nat, most: nat)
    requires count > 0
    ensures (forall s, rs, x :: Unclaimed(count, s, rs, x, most) ==> |rs| <= |s.pending| + 1) <==> most < count
  {
    forall s, rs, x | Unclaimed(count, s, rs, x, most) && most < count
      ensures |rs| <= |s.pending| + 1
    {
      SweepReaches(count, s, rs, x, most);
    }
    if most >= count {
      AheadStarves(count, most, |Ahead(count + 2, count).pending| + 2);
    }
  }
}
