/**
 * IdFactory: issues window identifiers from a 64-bit counter and reissues
 * released identifiers last-in first-out (lib/rwin/IdFactory.cpp,
 * include/rwin/IdFactory.h).
 */
module Ids {
  import opened Types

  const MAX_ID: uint64 := TWO_64 - 1

  /** The factory's fields as a value: the counter _id and the list _freeIds. */
  datatype FactoryState = FactoryState(next: uint64, freeIds: seq<uint64>)

  const FRESH: FactoryState := FactoryState(0, [])

  /** _id++ on a std::uint64_t: wraps to 0 after the largest value. */
  function Increment(n: uint64): uint64
  {
    if n == MAX_ID then 0 else n + 1
  }

  /**
   * One call of New: the identifier it returns and the state after it. With
   * an empty free list it issues the counter's value; otherwise it undoes the
   * last Free, and the free list never grows.
   */
  function NewStep(s: FactoryState): (r: (uint64, FactoryState))
    ensures r.1.freeIds <= s.freeIds
    ensures s.freeIds == [] ==> r.0 == s.next && r.1.next == Increment(s.next)
    ensures s.freeIds != [] ==> FreeStep(r.1, r.0) == s
  {
    if s.freeIds == [] then
      (s.next, s.(next := Increment(s.next)))
    else
      (s.freeIds[|s.freeIds| - 1], s.(freeIds := s.freeIds[..|s.freeIds| - 1]))
  }

  /**
   * One call of Free: push_back onto the free list, with no check, so an id
   * freed twice is listed twice. The counter is untouched.
   */
  function FreeStep(s: FactoryState, id: uint64): (t: FactoryState)
    ensures t.next == s.next && s.freeIds <= t.freeIds
    ensures |t.freeIds| == |s.freeIds| + 1 && t.freeIds[|s.freeIds|] == id
  {
    s.(freeIds := s.freeIds + [id])
  }

  class IdFactory {
    var next: uint64
    var freeIds: seq<uint64>

    function State(): FactoryState
      reads this
    {
      FactoryState(next, freeIds)
    }

    constructor ()
      ensures State() == FRESH
    {
      next := 0;
      freeIds := [];
    }

    method New() returns (id: uint64)
      modifies this
      ensures (id, State()) == NewStep(old(State()))
    {
      if freeIds == [] {
        id := next;
        next := if next == MAX_ID then 0 else next + 1;
        return;
      }
      id := freeIds[|freeIds| - 1];
      freeIds := freeIds[..|freeIds| - 1];
    }

    method Free(id: uint64)
      modifies this
      ensures State() == FreeStep(old(State()), id)
    {
      freeIds := freeIds + [id];
    }
  }

  /** With an empty free list, New returns the counter and advances it. */
  lemma NewFromCounter(s: FactoryState)
    requires s.freeIds == []
    ensures NewStep(s).0 == s.next
    ensures NewStep(s).1 == FactoryState(Increment(s.next), [])
  {
  }

  /** With a non-empty free list, New pops the most recently freed id and leaves the counter alone. */
  lemma NewPopsFreeList(s: FactoryState, id: uint64)
    ensures NewStep(FreeStep(s, id)) == (id, s)
  {
  }

  /** Calling New n times in a row: the identifiers returned, in order, and the final state. */
  function NewMany(s: FactoryState, n: nat): (seq<uint64>, FactoryState)
    decreases n
  {
    if n == 0 then ([], s)
    else
      var (id, s1) := NewStep(s);
      var (ids, s2) := NewMany(s1, n - 1);
      ([id] + ids, s2)
  }

  /** A fresh factory hands out 0, 1, 2, ... in order. */
  lemma {:induction false} CountsUpFrom(start: uint64, n: nat)
    requires start + n <= MAX_ID
    ensures |NewMany(FactoryState(start, []), n).0| == n
    ensures forall i :: 0 <= i < n ==> NewMany(FactoryState(start, []), n).0[i] == start + i
    ensures NewMany(FactoryState(start, []), n).1 == FactoryState(start + n, [])
    decreases n
  {
    if n > 0 {
      CountsUpFrom(start + 1, n - 1);
    }
  }

  lemma FreshFactoryCountsUp(n: nat)
    requires n <= MAX_ID
    ensures NewMany(FRESH, n).0 == seq(n, i => i)
  {
    CountsUpFrom(0, n);
  }

  /** Freeing every id of xs, in order. */
  function FreeAll(s: FactoryState, xs: seq<uint64>): FactoryState
    decreases |xs|
  {
    if xs == [] then s else FreeAll(FreeStep(s, xs[0]), xs[1..])
  }

  function Reverse(xs: seq<uint64>): (r: seq<uint64>)
    ensures |r| == |xs|
    ensures forall i :: 0 <= i < |xs| ==> r[i] == xs[|xs| - 1 - i]
  {
    if xs == [] then [] else Reverse(xs[1..]) + [xs[0]]
  }

  lemma {:induction false} FreeAllAppends(s: FactoryState, xs: seq<uint64>)
    ensures FreeAll(s, xs) == s.(freeIds := s.freeIds + xs)
    decreases |xs|
  {
    if xs != [] {
      FreeAllAppends(FreeStep(s, xs[0]), xs[1..]);
      assert s.freeIds + [xs[0]] + xs[1..] == s.freeIds + xs;
    }
  }

  lemma {:induction false} NewManyPops(s: FactoryState, xs: seq<uint64>)
    ensures NewMany(s.(freeIds := s.freeIds + xs), |xs|) == (Reverse(xs), s)
    decreases |xs|
  {
    if xs != [] {
      var last := xs[|xs| - 1];
      var init := xs[..|xs| - 1];
      var full := s.(freeIds := s.freeIds + xs);
      var popped := s.(freeIds := s.freeIds + init);
      assert s.freeIds + xs == (s.freeIds + init) + [last];
      assert NewStep(full) == (last, popped);
      NewManyPops(s, init);
      assert Reverse(xs) == [last] + Reverse(init);
      assert NewMany(full, |xs|) == ([last] + NewMany(popped, |init|).0, NewMany(popped, |init|).1);
    } else {
      assert s.freeIds + xs == s.freeIds;
    }
  }

  /**
   * Freed identifiers are reissued before any new counter value, last freed
   * first: after freeing xs, the next |xs| calls of New return xs reversed and
   * restore the state before the frees, counter included.
   */
  lemma FreedReissuedFirst(s: FactoryState, xs: seq<uint64>)
    ensures NewMany(FreeAll(s, xs), |xs|) == (Reverse(xs), s)
  {
    FreeAllAppends(s, xs);
    NewManyPops(s, xs);
  }

  /** Free does not check: freeing the same id twice makes New return it twice. */
  lemma DoubleFreeReissuesTwice(s: FactoryState, id: uint64)
    ensures NewMany(FreeStep(FreeStep(s, id), id), 2).0 == [id, id]
  {
    FreeAllAppends(s, [id, id]);
    assert s.freeIds + [id] + [id] == s.freeIds + [id, id];
    FreedReissuedFirst(s, [id, id]);
  }

  /**
   * The caller obligation, as an invariant: every live id and every free id is
   * below the counter, the free list has no duplicates and holds no live id.
   */
  ghost predicate Disciplined(s: FactoryState, live: set<uint64>)
  {
    && (forall id :: id in live ==> id < s.next)
    && (forall i :: 0 <= i < |s.freeIds| ==> s.freeIds[i] < s.next && s.freeIds[i] !in live)
    && (forall i, j :: 0 <= i < j < |s.freeIds| ==> s.freeIds[i] != s.freeIds[j])
  }

  /** New never returns a live id, and the invariant holds with the new id live. */
  lemma NewKeepsDiscipline(s: FactoryState, live: set<uint64>)
    requires Disciplined(s, live)
    requires s.freeIds == [] ==> s.next < MAX_ID
    ensures NewStep(s).0 !in live
    ensures Disciplined(NewStep(s).1, live + {NewStep(s).0})
  {
  }

  /** Freeing a live id (once) keeps the invariant with that id no longer live. */
  lemma FreeKeepsDiscipline(s: FactoryState, live: set<uint64>, id: uint64)
    requires Disciplined(s, live)
    requires id in live
    ensures Disciplined(FreeStep(s, id), live - {id})
  {
  }

  /** A call a client makes on the factory. */
  datatype Op = NewOp | FreeOp(id: uint64)

  /** Clients that free only live ids and never exhaust the counter (a New that pops the free list does not touch it). */
  ghost predicate Obeys(s: FactoryState, live: set<uint64>, ops: seq<Op>)
    decreases |ops|
  {
    ops == [] ||
    match ops[0]
    case NewOp =>
      (s.freeIds == [] ==> s.next < MAX_ID) &&
      Obeys(NewStep(s).1, live + {NewStep(s).0}, ops[1..])
    case FreeOp(id) =>
      id in live && Obeys(FreeStep(s, id), live - {id}, ops[1..])
  }

  /** The ids New returns while replaying ops, each paired with the live set at that moment. */
  ghost function Issued(s: FactoryState, live: set<uint64>, ops: seq<Op>): seq<(uint64, set<uint64>)>
    decreases |ops|
  {
    if ops == [] then []
    else match ops[0]
      case NewOp => [(NewStep(s).0, live)] + Issued(NewStep(s).1, live + {NewStep(s).0}, ops[1..])
      case FreeOp(id) => Issued(FreeStep(s, id), live - {id}, ops[1..])
  }

  /**
   * For any sequence of calls that keeps the caller obligation, starting from a
   * fresh factory, New never returns an id that is still live.
   */
  lemma {:induction false} NeverReissuesLive(s: FactoryState, live: set<uint64>, ops: seq<Op>)
    requires Disciplined(s, live)
    requires Obeys(s, live, ops)
    ensures forall k :: 0 <= k < |Issued(s, live, ops)| ==> Issued(s, live, ops)[k].0 !in Issued(s, live, ops)[k].1
    decreases |ops|
  {
    if ops != [] {
      match ops[0]
      case NewOp =>
        NewKeepsDiscipline(s, live);
        NeverReissuesLive(NewStep(s).1, live + {NewStep(s).0}, ops[1..]);
      case FreeOp(id) =>
        FreeKeepsDiscipline(s, live, id);
        NeverReissuesLive(FreeStep(s, id), live - {id}, ops[1..]);
    }
  }

  lemma FreshFactoryDisciplined()
    ensures Disciplined(FRESH, {})
  {
  }
}
