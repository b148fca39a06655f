/**
 The client's table of pending requests: `PendingEntry` and `RequestTracker`.
 Every method is one critical section of the tracker's lock.
 */
module Tracker {
  import opened IdRing
  import opened Wire

  /** Why a future was completed with an exception. */
  datatype Failure = Wire(error: WireError) | TransportClosed

  datatype Outcome<+V> = Unset | Resolved(value: V) | Failed(error: Failure) | Cancelled

  class Future<V> {
    var outcome: Outcome<V>

    constructor ()
      ensures outcome == Unset
    {
      outcome := Unset;
    }
  }

  /** The decoder stands for the response type stored in the entry. */
  datatype PendingEntry<!V> = PendingEntry(future: Future<V>, decode: seq<Bytes> -> Result<V, WireError>) {

    /** An unset future gets what the frames decode to, or the error; any other keeps what it has. */
    method Resolve(frames: seq<Bytes>)
      modifies future
      ensures !old(future.outcome).Unset? ==> future.outcome == old(future.outcome)
      ensures old(future.outcome).Unset? && decode(frames).Ok? ==>
                future.outcome == Outcome.Resolved(decode(frames).value)
      ensures old(future.outcome).Unset? && decode(frames).Err? ==>
                future.outcome == Failed(Failure.Wire(decode(frames).error))
    {
      if !future.outcome.Unset? {
        return;
      }
      match decode(frames)
      case Ok(v) => future.outcome := Outcome.Resolved(v);
      case Err(e) => future.outcome := Failed(Failure.Wire(e));
    }

    method Reject(error: Failure)
      modifies future
      ensures future.outcome == if old(future.outcome).Unset? then Failed(error) else old(future.outcome)
    {
      if future.outcome.Unset? {
        future.outcome := Failed(error);
      }
    }

    method Cancel()
      modifies future
      ensures future.outcome == if old(future.outcome).Unset? then Cancelled else old(future.outcome)
    {
      if future.outcome.Unset? {
        future.outcome := Cancelled;
      }
    }
  }

  class RequestTracker<V> {
    var pending: map<Id, PendingEntry<V>>
    var nextId: Id

    ghost function Futures(): set<Future<V>>
      reads this
    {
      set id | id in pending :: pending[id].future
    }

    /** No two entries share a future. */
    ghost predicate Valid()
      reads this
    {
      forall a, b :: a in pending && b in pending && a != b ==> pending[a].future != pending[b].future
    }

    constructor ()
      ensures Valid() && pending == map[] && nextId == 1
    {
      pending, nextId := map[], 1;
    }

    /**
     Ends whenever some id is free, which `FreeIdExists` shows to be exactly the precondition: the distance to a
     free id falls on every turn.
     */
    method Allocate(decode: seq<Bytes> -> Result<V, WireError>) returns (reqId: Id, future: Future<V>)
      requires Valid() && |pending.Keys| < MAX_ID
      modifies this
      ensures Valid() && fresh(future) && future.outcome.Unset?
      ensures IsFirstFree(old(nextId), old(pending.Keys), reqId)
      ensures nextId == Successor(reqId)
      ensures pending == old(pending)[reqId := PendingEntry(future, decode)]
    {
      future := new Future();
      reqId := nextId;
      FreeIdExists(pending.Keys);
      ghost var free: Id :| free !in pending.Keys;
      while reqId in pending || reqId == 0
        invariant Distance(nextId, reqId) + Distance(reqId, free) == Distance(nextId, free)
        invariant forall x: Id :: Distance(nextId, x) < Distance(nextId, reqId) ==> x in pending
        decreases Distance(reqId, free)
        modifies {}
      {
        SuccessorAdvances(reqId, free);
        reqId := Successor(reqId);
      }
      nextId := Successor(reqId);
      pending := pending[reqId := PendingEntry(future, decode)];
    }

    method Pop(reqId: Id) returns (entry: Option<PendingEntry<V>>)
      requires Valid()
      modifies this
      ensures Valid() && nextId == old(nextId)
      ensures pending == old(pending) - {reqId}
      ensures entry == if reqId in old(pending) then Some(old(pending)[reqId]) else None
    {
      entry := if reqId in pending then Some(pending[reqId]) else None;
      pending := pending - {reqId};
    }

    /** A reply completes the entry registered under its id and nothing else; without an entry it is dropped. */
    method Resolve(reqId: Id, frames: seq<Bytes>) returns (found: bool)
      requires Valid()
      modifies this, if reqId in pending then {pending[reqId].future} else {}
      ensures Valid() && nextId == old(nextId)
      ensures pending == old(pending) - {reqId}
      ensures found <==> reqId in old(pending)
      ensures found ==> var entry := old(pending)[reqId];
                        && (!old(entry.future.outcome).Unset? ==> entry.future.outcome == old(entry.future.outcome))
                        && (old(entry.future.outcome).Unset? && entry.decode(frames).Ok? ==>
                              entry.future.outcome == Outcome.Resolved(entry.decode(frames).value))
                        && (old(entry.future.outcome).Unset? && entry.decode(frames).Err? ==>
                              entry.future.outcome == Failed(Failure.Wire(entry.decode(frames).error)))
    {
      var entry := Pop(reqId);
      if entry.Some? {
        entry.value.Resolve(frames);
      }
      return entry.Some?;
    }

    method Cancel(reqId: Id) returns (found: bool)
      requires Valid()
      modifies this, if reqId in pending then {pending[reqId].future} else {}
      ensures Valid() && nextId == old(nextId)
      ensures pending == old(pending) - {reqId}
      ensures found <==> reqId in old(pending)
      ensures found ==> var f := old(pending)[reqId].future;
                        f.outcome == if old(f.outcome).Unset? then Cancelled else old(f.outcome)
    {
      var entry := Pop(reqId);
      if entry.Some? {
        entry.value.Cancel();
      }
      return entry.Some?;
    }

    /** Empties the table and leaves no entry's future unset. */
    method Close()
      requires Valid()
      modifies this, Futures()
      ensures Valid() && nextId == old(nextId) && pending == map[]
      ensures forall id :: id in old(pending) ==>
                var f := old(pending)[id].future;
                f.outcome == if old(f.outcome).Unset? then Failed(TransportClosed) else old(f.outcome)
    {
      var todo := pending.Keys;
      while todo != {}
        invariant todo <= pending.Keys && pending == old(pending) && nextId == old(nextId)
        invariant forall id :: id in pending ==>
                    var f := pending[id].future;
                    f.outcome == if id !in todo && old(f.outcome).Unset? then Failed(TransportClosed)
                                 else old(f.outcome)
        decreases todo
      {
        var id :| id in todo;
        pending[id].Reject(TransportClosed);
        todo := todo - {id};
      }
      pending := map[];
    }
  }

  // ----- Reuse of ids over any interleaving of tracker calls

  /** What one locked call does to the table: hand out an id, or take entries away. */
  datatype TrackerCall = Allocated(id: Id) | Removed(ids: set<Id>)

  datatype Table = Table(cursor: Id, taken: set<Id>)

  ghost predicate Possible(t: Table, call: TrackerCall) {
    call.Allocated? ==> IsFirstFree(t.cursor, t.taken, call.id)
  }

  function After(t: Table, call: TrackerCall): Table {
    match call
    case Allocated(id) => Table(Successor(id), t.taken + {id})
    case Removed(ids) => Table(t.cursor, t.taken - ids)
  }

  ghost predicate PossibleRun(t: Table, calls: seq<TrackerCall>)
    decreases calls
  {
    calls != [] ==> Possible(t, calls[0]) && PossibleRun(After(t, calls[0]), calls[1..])
  }

  function Allocations(calls: seq<TrackerCall>): nat {
    if calls == [] then 0 else (if calls[0].Allocated? then 1 else 0) + Allocations(calls[1..])
  }

  lemma {:induction false} PotentialHoldsBack(t: Table, calls: seq<TrackerCall>, id: Id, pendingAfter: nat, since: nat)
    requires Potential(id, pendingAfter, since, t.cursor, t.taken)
    requires PossibleRun(t, calls)
    requires since + Allocations(calls) <= MAX_ID - pendingAfter
    ensures Allocated(id) !in calls
    decreases calls
  {
    if calls != [] {
      var next := After(t, calls[0]);
      match calls[0] {
        case Allocated(other) =>
          AllocationKeepsAway(id, pendingAfter, since, t.cursor, t.taken, other);
          PotentialHoldsBack(next, calls[1..], id, pendingAfter, since + 1);
        case Removed(ids) =>
          PotentialShrinks(id, pendingAfter, since, t.cursor, t.taken, next.taken);
          PotentialHoldsBack(next, calls[1..], id, pendingAfter, since);
      }
    }
  }

  /**
   Between two allocations of the same id at least MAX_ID - p others happen, p being the number of entries pending
   just after the first, however allocations are mixed with replies, cancellations, pops and closes.
   */
  lemma ReuseDistance(before: Table, id: Id, between: seq<TrackerCall>)
    requires PossibleRun(before, [Allocated(id)] + between + [Allocated(id)])
    ensures Allocations(between) >= MAX_ID - |before.taken + {id}|
  {
    var calls := between + [Allocated(id)];
    assert ([Allocated(id)] + between + [Allocated(id)])[1..] == calls;
    var t := After(before, Allocated(id));
    PotentialStarts(id, t.taken);
    AllocationsConcat(between, [Allocated(id)]);
    assert calls[|between|] == Allocated(id);
    if Allocations(calls) <= MAX_ID - |t.taken| {
      PotentialHoldsBack(t, calls, id, |t.taken|, 0);
      assert false;
    }
  }

  lemma {:induction false} AllocationsConcat(a: seq<TrackerCall>, b: seq<TrackerCall>)
    ensures Allocations(a + b) == Allocations(a) + Allocations(b)
  {
    if a == [] {
      assert a + b == b;
    } else {
      assert (a + b)[1..] == a[1..] + b;
      AllocationsConcat(a[1..], b);
    }
  }

  // ----- The bound is exact

  /** Everything the cursor has passed since `id` is taken. */
  ghost predicate PassedTaken(id: Id, t: Table) {
    forall x: Id :: Offset(id, x) < Offset(id, t.cursor) ==> x in t.taken
  }

  lemma {:induction false} FirstFree(cursor: Id, taken: set<Id>, at: Id, free: Id) returns (first: Id)
    requires free !in taken && Distance(cursor, at) <= Distance(cursor, free)
    requires forall x: Id :: Distance(cursor, x) < Distance(cursor, at) ==> x in taken
    ensures IsFirstFree(cursor, taken, first)
    decreases Distance(cursor, free) - Distance(cursor, at)
  {
    if at !in taken {
      return at;
    }
    var next := At(cursor, Distance(cursor, at) + 1);
    forall x: Id | Distance(cursor, x) < Distance(cursor, next) ensures x in taken {
      SameDistance(cursor, x, at);
    }
    first := FirstFree(cursor, taken, next, free);
  }

  lemma SameDistance(cursor: Id, x: Id, y: Id)
    ensures Distance(cursor, x) == Distance(cursor, y) <==> x == y
  {}

  lemma AllButOne(id: Id, taken: set<Id>)
    requires id !in taken
    ensures |taken| <= MAX_ID - 1
    ensures |taken| == MAX_ID - 1 <==> forall x: Id :: x != id ==> x in taken
  {
    var others := Arc(1, 0, MAX_ID) - {id};
    ArcSize(1, 0, MAX_ID);
    assert forall x: Id :: x in others <==> x != id;
    SubsetSize(taken, others);
    if forall x: Id :: x != id ==> x in taken {
      assert taken == others;
    }
  }

  /** Nothing but allocations, until only `id` is left. */
  lemma {:induction false} FillUp(id: Id, t: Table) returns (calls: seq<TrackerCall>)
    requires id !in t.taken && PassedTaken(id, t)
    ensures PossibleRun(t, calls + [Allocated(id)])
    ensures Allocations(calls) == MAX_ID - 1 - |t.taken|
    decreases MAX_ID - |t.taken|
  {
    AllButOne(id, t.taken);
    var first := FirstFree(t.cursor, t.taken, t.cursor, id);
    if |t.taken| == MAX_ID - 1 {
      calls := [];
      assert first == id && [Allocated(id)][1..] == [];
    } else {
      var free: Id :| free != id && free !in t.taken;
      OthersComeFirst(id, t, free, first);
      var next := After(t, Allocated(first));
      var rest := FillUp(id, next);
      calls := [Allocated(first)] + rest;
      assert (calls + [Allocated(id)])[1..] == rest + [Allocated(id)];
    }
  }

  lemma OthersComeFirst(id: Id, t: Table, free: Id, first: Id)
    requires id !in t.taken && PassedTaken(id, t) && free != id && free !in t.taken
    requires IsFirstFree(t.cursor, t.taken, first)
    ensures first != id && PassedTaken(id, After(t, Allocated(first)))
  {
    OffsetFromCursor(id, t.cursor, free);
    OffsetFromCursor(id, t.cursor, id);
    OffsetFromCursor(id, t.cursor, first);
    OffsetAdvances(id, first);
    forall x: Id | Offset(id, x) < Offset(id, Successor(first)) ensures x in t.taken + {first} {
      OffsetFromCursor(id, t.cursor, x);
      if Offset(id, x) == Offset(id, first) {
        SameOffset(id, x, first);
      }
    }
  }

  /** `ReuseDistance` cannot be improved: from every table, an id that is answered at once can come back that soon. */
  lemma ReuseDistanceIsExact(before: Table, id: Id) returns (between: seq<TrackerCall>)
    requires IsFirstFree(before.cursor, before.taken, id)
    ensures PossibleRun(before, [Allocated(id)] + between + [Allocated(id)])
    ensures Allocations(between) == MAX_ID - |before.taken + {id}|
  {
    var freed := After(After(before, Allocated(id)), Removed({id}));
    assert freed.taken == before.taken;
    var calls := FillUp(id, freed);
    between := [Removed({id})] + calls;
    assert between[1..] == calls;
    var run := between + [Allocated(id)];
    assert run[1..] == calls + [Allocated(id)];
    assert ([Allocated(id)] + between + [Allocated(id)])[1..] == run;
  }
}
