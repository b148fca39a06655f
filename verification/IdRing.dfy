/**
 Arithmetic of the request-id ring.

 Ids run through 1..MAX_ID and wrap around; 0 is reserved for traffic that belongs to no request.
 The allocator scans from its cursor to the first id that is not pending, so the interesting question is
 how soon an id can come back. `Potential` is the invariant that answers it.
 */
module IdRing {

  const MASK := 0x7FFF_FFFF
  const MAX_ID := MASK

  type Id = id: int | 1 <= id <= MAX_ID witness 1

  /** The id after `id`: one more, masked to 31 bits, and 1 in place of 0. */
  function Successor(id: Id): (r: Id)
    ensures r == if id == MAX_ID then 1 else id + 1
  {
    var masked := (id + 1) % (MASK + 1);
    if masked == 0 then 1 else masked
  }

  /** How many times the cursor must advance to get from `a` to `b`. */
  function Distance(a: Id, b: Id): (d: nat)
    ensures d < MAX_ID
    ensures d == 0 <==> a == b
  {
    if a <= b then b - a else b - a + MAX_ID
  }

  /** Distance counted from the id just after `id`; `id` itself comes last. */
  function Offset(id: Id, x: Id): (d: nat)
    ensures d <= MAX_ID - 1
    ensures d == MAX_ID - 1 <==> x == id
  {
    Distance(Successor(id), x)
  }

  lemma SuccessorAdvances(a: Id, b: Id)
    requires a != b
    ensures Distance(Successor(a), b) == Distance(a, b) - 1
  {}

  /** The scan from `cursor` stops at `id`: `id` is free and everything the scan passed is taken. */
  ghost predicate IsFirstFree(cursor: Id, taken: set<Id>, id: Id) {
    && id !in taken
    && forall x: Id :: Distance(cursor, x) < Distance(cursor, id) ==> x in taken
  }

  // ----- Counting

  /** The ids whose distance from `start` lies in [lo, hi). */
  function Arc(start: Id, lo: nat, hi: nat): set<Id> {
    set x: Id | 1 <= x <= MAX_ID && lo <= Distance(start, x) < hi
  }

  /** The id at a given distance from `start`. */
  function At(start: Id, d: nat): (x: Id)
    requires d < MAX_ID
    ensures Distance(start, x) == d
  {
    if start + d <= MAX_ID then start + d else start + d - MAX_ID
  }

  lemma {:induction false} ArcSize(start: Id, lo: nat, hi: nat)
    requires lo <= hi <= MAX_ID
    ensures |Arc(start, lo, hi)| == hi - lo
    decreases hi - lo
  {
    if lo == hi {
      assert Arc(start, lo, hi) == {};
    } else {
      ArcSize(start, lo, hi - 1);
      assert Arc(start, lo, hi) == Arc(start, lo, hi - 1) + {At(start, hi - 1)};
    }
  }

  lemma {:induction false} SubsetSize<T>(a: set<T>, b: set<T>)
    requires a <= b
    ensures |a| <= |b|
    ensures |a| == |b| ==> a == b
  {
    assert b == a + (b - a);
  }

  /** A free id exists exactly when fewer than MAX_ID ids are taken: the scan ends iff the table is not full. */
  lemma FreeIdExists(taken: set<Id>)
    ensures (exists id: Id :: id !in taken) <==> |taken| < MAX_ID
  {
    var all := Arc(1, 0, MAX_ID);
    ArcSize(1, 0, MAX_ID);
    assert forall id: Id :: id in all;
    SubsetSize(taken, all);
    if |taken| == MAX_ID {
      assert taken == all;
    } else if forall id: Id :: id in taken {
      SubsetSize(all, taken);
    }
  }

  // ----- When can an id come back?

  /** Taken ids, other than `id`, that the cursor still has to pass before it reaches `id` again. */
  function Ahead(id: Id, cursor: Id, taken: set<Id>): set<Id> {
    set x: Id | x in taken && x != id && Offset(id, cursor) <= Offset(id, x)
  }

  /**
   `id` was allocated with `pendingAfter` entries pending just afterwards, and `since` allocations followed.
   What the cursor has moved, plus what it can still skip, is paid for by those allocations and by the
   entries that were pending at the start.
   */
  ghost predicate Potential(id: Id, pendingAfter: int, since: nat, cursor: Id, taken: set<Id>) {
    Offset(id, cursor) + |Ahead(id, cursor, taken)| <= since + pendingAfter - 1
  }

  lemma PotentialStarts(id: Id, taken: set<Id>)
    requires id in taken
    ensures Potential(id, |taken|, 0, Successor(id), taken)
  {
    SubsetSize(Ahead(id, Successor(id), taken), taken - {id});
  }

  /** Removing entries keeps the potential. */
  lemma PotentialShrinks(id: Id, pendingAfter: int, since: nat, cursor: Id, taken: set<Id>, fewer: set<Id>)
    requires Potential(id, pendingAfter, since, cursor, taken)
    requires fewer <= taken
    ensures Potential(id, pendingAfter, since, cursor, fewer)
  {
    SubsetSize(Ahead(id, cursor, fewer), Ahead(id, cursor, taken));
  }

  lemma OffsetFromCursor(id: Id, cursor: Id, x: Id)
    ensures Offset(id, cursor) <= Offset(id, x) ==> Distance(cursor, x) == Offset(id, x) - Offset(id, cursor)
    ensures Offset(id, x) < Offset(id, cursor) ==>
              Distance(cursor, x) == Offset(id, x) - Offset(id, cursor) + MAX_ID
  {}

  /** A scan that reached `id`, or wrapped past it, found everything up to there taken. */
  lemma ReachingCosts(id: Id, cursor: Id, taken: set<Id>, next: Id)
    requires IsFirstFree(cursor, taken, next)
    requires next == id || Offset(id, next) < Offset(id, cursor)
    ensures |Ahead(id, cursor, taken)| >= MAX_ID - 1 - Offset(id, cursor)
  {
    var d := Offset(id, cursor);
    var passed := Arc(Successor(id), d, MAX_ID - 1);
    OffsetFromCursor(id, cursor, next);
    forall x: Id | x in passed ensures x in Ahead(id, cursor, taken) {
      OffsetFromCursor(id, cursor, x);
    }
    ArcSize(Successor(id), d, MAX_ID - 1);
    SubsetSize(passed, Ahead(id, cursor, taken));
  }

  lemma OffsetAdvances(id: Id, x: Id)
    requires x != id
    ensures Offset(id, Successor(x)) == Offset(id, x) + 1
  {}

  lemma SameOffset(id: Id, x: Id, y: Id)
    requires Offset(id, x) == Offset(id, y)
    ensures x == y
  {}

  /** A scan that stops before `id` uses up one entry ahead for every id it skips. */
  lemma SkippingCosts(id: Id, cursor: Id, taken: set<Id>, next: Id)
    requires IsFirstFree(cursor, taken, next)
    requires next != id && Offset(id, cursor) <= Offset(id, next)
    ensures Offset(id, Successor(next)) == Offset(id, next) + 1
    ensures |Ahead(id, Successor(next), taken + {next})|
            == |Ahead(id, cursor, taken)| - (Offset(id, next) - Offset(id, cursor))
  {
    var d, o := Offset(id, cursor), Offset(id, next);
    var skipped := Arc(Successor(id), d, o);
    ArcSize(Successor(id), d, o);
    OffsetAdvances(id, next);
    forall x: Id | x in skipped ensures x in Ahead(id, cursor, taken) {
      OffsetFromCursor(id, cursor, x);
      OffsetFromCursor(id, cursor, next);
    }
    forall x: Id ensures x in Ahead(id, Successor(next), taken + {next}) <==> x in Ahead(id, cursor, taken) - skipped {
      if Offset(id, x) == o {
        SameOffset(id, x, next);
      }
    }
    assert Ahead(id, Successor(next), taken + {next}) == Ahead(id, cursor, taken) - skipped;
    assert |Ahead(id, cursor, taken) - skipped| == |Ahead(id, cursor, taken)| - |skipped|;
  }

  /**
   As long as fewer than MAX_ID - pendingAfter allocations followed, the next allocation cannot return `id`,
   nor can the cursor pass it.
   */
  lemma AllocationKeepsAway(id: Id, pendingAfter: int, since: nat, cursor: Id, taken: set<Id>, next: Id)
    requires Potential(id, pendingAfter, since, cursor, taken)
    requires IsFirstFree(cursor, taken, next)
    requires since < MAX_ID - pendingAfter
    ensures next != id
    ensures Offset(id, cursor) <= Offset(id, next)
    ensures Potential(id, pendingAfter, since + 1, Successor(next), taken + {next})
  {
    if next == id || Offset(id, next) < Offset(id, cursor) {
      ReachingCosts(id, cursor, taken, next);
      assert false;
    }
    SkippingCosts(id, cursor, taken, next);
  }
}
