/**
 The inductive invariant of the protocol, and the proof that every step keeps it.
 `ClientInv` is about one client and the handlers the server runs for it; `ServerInv` is about the server's tables.
 */
module ProtocolInvariant {
  import opened IdRing
  import opened Wire
  import opened Handlers
  import opened Protocol
  import Metrics

  // ----- One call

  predicate Early(x: Call) {
    x.stage.Allocated? || x.stage.Checked? || x.stage.Failing? || x.stage.Popped?
  }

  /** An exception of its own has left `send_request`. */
  predicate Left(x: Call) {
    x.stage.Unencoded? || x.stage.Stranded?
  }

  /** The only calls that may still be in the tracker after `close` has emptied it. */
  predicate MayOutliveClose(x: Call) {
    x.stage.Allocated? || x.stage.Failing? || x.stage.Unencoded?
  }

  predicate Cancelling(x: Call) {
    x.stage.CancelBegun? || x.stage.CancelTaken? || x.stage.CancelDone?
  }

  predicate MayBePending(x: Call) {
    !x.stage.Popped? && !x.stage.CancelTaken? && !x.stage.CancelDone?
  }

  predicate CallOk(x: Call) {
    && x.command != CANCEL_REQUEST
    && (Early(x) || Left(x) ==> x.phase == Unsent)
    && (Cancelling(x) || (x.stage.Returned? && x.future.Unset?) ==> x.phase != Unsent)
    && (x.phase.Unsent? || x.phase.Queued? || x.phase == Over(Lost) ==> x.replies == 0)
    && (x.phase.Over? && x.phase.ending.Completed? ==> x.replies == if x.phase.ending.gaveUp then 0 else 1)
    && x.replies <= 1
    && (!x.stage.CancelDone? ==> x.cancels == 0)
    && x.cancels <= 1
    && (Cancelling(x) <==> x.future == Cancelled)
  }

  predicate CallsOk(c: Client) {
    forall k | 0 <= k < |c.calls| :: CallOk(c.calls[k]) && c.calls[k].pendingAfter <= k + 1
  }

  // ----- One client

  predicate InTracker(c: Client, k: nat)
    requires k < |c.calls|
  {
    c.calls[k].id in c.pending && c.pending[c.calls[k].id] == k
  }

  predicate Alive(c: Client, i: Identity, tasks: map<nat, Task>, k: nat)
    requires k < |c.calls|
  {
    InTracker(c, k) || Present(c, i, tasks, k)
  }

  /** No two calls that are still around use the same id. */
  predicate Distinct(c: Client, i: Identity, tasks: map<nat, Task>) {
    forall j, k | 0 <= j < k < |c.calls| ::
      Alive(c, i, tasks, j) && Alive(c, i, tasks, k) ==> c.calls[j].id != c.calls[k].id
  }

  function Since(c: Client, k: nat): nat
    requires k < |c.calls|
  {
    |c.calls| - 1 - k
  }

  ghost predicate RingOkAt(c: Client, k: nat)
    requires k < |c.calls|
  {
    var x := c.calls[k];
    Since(c, k) <= MAX_ID - x.pendingAfter ==> Potential(x.id, x.pendingAfter, Since(c, k), c.cursor, c.pending.Keys)
  }

  ghost predicate RingOk(c: Client) {
    forall k | 0 <= k < |c.calls| :: RingOkAt(c, k)
  }

  predicate PendingOk(c: Client) {
    forall id | id in c.pending ::
      c.pending[id] < |c.calls| && c.calls[c.pending[id]].id == id && MayBePending(c.calls[c.pending[id]])
  }

  /** A future is unset only while something is bound to set it, and for as long as no caller has it. */
  predicate UnsetOk(c: Client) {
    forall k | 0 <= k < |c.calls| ::
      && (c.calls[k].future.Unset? ==>
            InTracker(c, k) || c.calls[k].stage.Popped? || (c.resolving.Some? && c.resolving.value.entry == k))
      && (InTracker(c, k) && Left(c.calls[k]) ==> c.calls[k].future.Unset?)
      && (InTracker(c, k) && Early(c.calls[k]) ==> c.calls[k].future.Unset?)
  }

  predicate MessageOk(x: Call, m: Message) {
    match m
    case Request(id, _) => id == x.id && x.phase.Queued?
    case CancelMessage(target, _) => target == x.id && x.stage.CancelDone?
  }

  /** Every message matches its call, and nothing about a call stands in front of its request. */
  predicate OutboundOk(calls: seq<Call>, q: seq<Message>) {
    && (forall m | m in q :: m.tag < |calls| && MessageOk(calls[m.tag], m))
    && (forall a, b | 0 <= a < b < |q| :: q[b].Request? ==> q[a].tag != q[b].tag)
  }

  predicate TaskOk(x: Call, t: nat, task: Task) {
    && task.id == x.id
    && x.phase == Handled(t)
    && x.replies == (if Answered(task.handler) then 1 else 0)
    && !task.handler.Ended?
  }

  predicate TasksOk(calls: seq<Call>, i: Identity, tasks: map<nat, Task>) {
    forall t | t in tasks && tasks[t].identity == i ::
      tasks[t].tag < |calls| && TaskOk(calls[tasks[t].tag], t, tasks[t])
  }

  predicate DownOk(calls: seq<Call>, q: seq<Delivery>) {
    forall d | d in q && d.Reply? :: d.tag < |calls| && d.id == calls[d.tag].id && calls[d.tag].replies == 1
  }

  predicate AnswerOk(c: Client) {
    && (c.resolving.Some? ==>
          c.resolving.value.entry < |c.calls| && c.resolving.value.answerTo == c.resolving.value.entry
          && !InTracker(c, c.resolving.value.entry))
    && forall k | 0 <= k < |c.calls| :: c.calls[k].future.Result? ==> c.calls[k].future.answerTo == k
  }

  predicate CloseOk(c: Client) {
    && (c.trackerClosed ==> c.closed)
    && (c.closed ==> !c.running)
    && (c.trackerClosed ==>
          forall id | id in c.pending && c.pending[id] < |c.calls| ::
            MayOutliveClose(c.calls[c.pending[id]]))
  }

  /** What the client's own state promises. */
  predicate Books(c: Client) {
    CallsOk(c) && PendingOk(c) && UnsetOk(c) && AnswerOk(c) && CloseOk(c)
  }

  /** What ties it to the id ring, the channels and the handlers. */
  ghost predicate Wires(c: Client, i: Identity, tasks: map<nat, Task>) {
    && RingOk(c)
    && OutboundOk(c.calls, Outbound(c))
    && TasksOk(c.calls, i, tasks)
    && DownOk(c.calls, c.downlink)
    && Distinct(c, i, tasks)
  }

  ghost predicate ClientInv(c: Client, i: Identity, tasks: map<nat, Task>) {
    Books(c) && Wires(c, i, tasks)
  }

  // ----- Rules for keeping the parts

  /** The two clients have the same calls as far as ids go. */
  predicate SameIds(c: Client, d: Client) {
    && |c.calls| == |d.calls|
    && forall k | 0 <= k < |c.calls| ::
         c.calls[k].id == d.calls[k].id && c.calls[k].pendingAfter == d.calls[k].pendingAfter
  }

  lemma RingKept(c: Client, d: Client)
    requires RingOk(c) && SameIds(c, d) && d.cursor == c.cursor && d.pending.Keys <= c.pending.Keys
    ensures RingOk(d)
  {
    forall k | 0 <= k < |d.calls| ensures RingOkAt(d, k) {
      assert RingOkAt(c, k);
      var x := c.calls[k];
      if Since(c, k) <= MAX_ID - x.pendingAfter {
        PotentialShrinks(x.id, x.pendingAfter, Since(c, k), c.cursor, c.pending.Keys, d.pending.Keys);
      }
    }
  }

  /** Ids stay distinct when nothing comes back to life. */
  lemma DistinctKept(c: Client, d: Client, i: Identity, tasks: map<nat, Task>, tasks': map<nat, Task>)
    requires Distinct(c, i, tasks) && SameIds(c, d)
    requires forall k | 0 <= k < |d.calls| :: Alive(d, i, tasks', k) ==> Alive(c, i, tasks, k)
    ensures Distinct(d, i, tasks')
  {}

  /** What the channels and the handlers rely on is untouched. */
  predicate SameTraffic(x: Call, y: Call) {
    && y.id == x.id && y.pendingAfter == x.pendingAfter && y.phase == x.phase && y.replies == x.replies
    && (x.stage.CancelDone? ==> y.stage.CancelDone?)
  }

  /** The parts of the invariant about traffic survive any change of stages and futures. */
  lemma TrafficKept(c: Client, d: Client, i: Identity, tasks: map<nat, Task>)
    requires OutboundOk(c.calls, Outbound(c)) && TasksOk(c.calls, i, tasks) && DownOk(c.calls, c.downlink)
    requires Outbound(d) == Outbound(c) && d.downlink == c.downlink
    requires |d.calls| == |c.calls| && forall k | 0 <= k < |c.calls| :: SameTraffic(c.calls[k], d.calls[k])
    ensures OutboundOk(d.calls, Outbound(d)) && TasksOk(d.calls, i, tasks) && DownOk(d.calls, d.downlink)
  {}

  // ----- Client steps: the books

  /** The entry under the id of `k`, if any, is its own. */
  predicate OwnsEntry(c: Client, k: nat) {
    k < |c.calls| && (c.calls[k].id in c.pending ==> c.pending[c.calls[k].id] == k)
  }

  /** One call moves on; the tracker, the flags and the worker stay as they are. */
  lemma CallBooks(c: Client, d: Client, k: nat)
    requires Books(c) && k < |c.calls| == |d.calls| && d.calls == c.calls[k := d.calls[k]]
    requires d.pending == c.pending && d.closed == c.closed && d.running == c.running
    requires d.trackerClosed == c.trackerClosed && d.resolving == c.resolving
    requires CallOk(d.calls[k]) && d.calls[k].id == c.calls[k].id
    requires d.calls[k].pendingAfter == c.calls[k].pendingAfter
    requires InTracker(c, k) ==>
               MayBePending(d.calls[k])
               && (c.trackerClosed ==> MayOutliveClose(d.calls[k]))
    requires d.calls[k].future == c.calls[k].future || (!d.calls[k].future.Unset? && !d.calls[k].future.Result?)
    requires c.calls[k].stage.Popped? && d.calls[k].future.Unset? ==> d.calls[k].stage.Popped?
    requires InTracker(c, k) && (Early(d.calls[k]) || Left(d.calls[k])) ==> d.calls[k].future.Unset?
    ensures Books(d)
  {}

  lemma TestFlagsBooks(c: Client, a: Action)
    requires a.TestFlags? && Books(c) && a.k < |c.calls| && c.calls[a.k].stage == Allocated
    ensures Books(Act(c, a))
  {
    CallBooks(c, Act(c, a), a.k);
  }

  lemma LeaveBooks(c: Client, i: Identity, tasks: map<nat, Task>, a: Action)
    requires (a.FailToEncode? || a.Strand?) && Books(c) && CanAct(c, i, tasks, a)
    ensures Books(Act(c, a))
  {
    CallBooks(c, Act(c, a), a.k);
  }

  lemma EnqueueBooks(c: Client, a: Action)
    requires a.Enqueue? && Books(c) && a.k < |c.calls| && c.calls[a.k].stage == Checked
    ensures Books(Act(c, a))
  {
    CallBooks(c, Act(c, a), a.k);
  }

  lemma FailFutureBooks(c: Client, a: Action)
    requires a.FailFuture? && Books(c) && a.k < |c.calls| && c.calls[a.k].stage == Popped
    ensures Books(Act(c, a))
  {}

  lemma UserCancelBooks(c: Client, a: Action)
    requires a.UserCancel? && Books(c) && a.k < |c.calls|
    requires c.calls[a.k].stage == Returned && c.calls[a.k].future == Unset
    ensures Books(Act(c, a))
  {}

  lemma QueueCancelBooks(c: Client, a: Action)
    requires a.QueueCancel? && Books(c) && a.k < |c.calls| && c.calls[a.k].stage == CancelTaken
    ensures Books(Act(c, a))
  {
    CallBooks(c, Act(c, a), a.k);
  }

  lemma FlagBooks(c: Client, i: Identity, tasks: map<nat, Task>, a: Action)
    requires a.Enter? || a.StopWorker? || a.CloseFlags? || a.CompleteReply?
    requires Books(c) && CanAct(c, i, tasks, a)
    ensures Books(Act(c, a))
  {}

  lemma PopBooks(c: Client, a: Action)
    requires a.PopFailed? && Books(c) && OwnsEntry(c, a.k) && c.calls[a.k].stage == Failing
    ensures Books(Act(c, a))
  {
    EntryGone(c, c.(pending := c.pending - {c.calls[a.k].id}), Act(c, a), a.k);
  }

  lemma CancelPopIsLocal(c: Client, a: Action)
    requires a.CancelPop? && Books(c) && OwnsEntry(c, a.k) && c.calls[a.k].stage == CancelBegun
    ensures Act(c, a).calls
            == c.calls[a.k := c.calls[a.k].(stage := if c.calls[a.k].id in c.pending then CancelTaken else CancelDone)]
  {
    var x := c.calls[a.k];
    assert x.(future := FirstWins(x.future, Cancelled)) == x;
    assert c.calls[a.k := x] == c.calls;
  }

  lemma CancelPopBooks(c: Client, a: Action)
    requires a.CancelPop? && Books(c) && OwnsEntry(c, a.k) && c.calls[a.k].stage == CancelBegun
    ensures Books(Act(c, a))
  {
    CancelPopIsLocal(c, a);
    var d := Act(c, a);
    var e := c.(pending := c.pending - {c.calls[a.k].id});
    assert d == e.(calls := d.calls);
    assert d.calls[a.k].future == Cancelled;
    EntryGone(c, e, d, a.k);
  }

  /** A call that no longer needs its entry gives it up. */
  lemma EntryGone(c: Client, e: Client, d: Client, k: nat)
    requires Books(c) && OwnsEntry(c, k)
    requires e == c.(pending := c.pending - {c.calls[k].id})
    requires |d.calls| == |c.calls| && d == e.(calls := c.calls[k := d.calls[k]])
    requires CallOk(d.calls[k]) && d.calls[k].id == c.calls[k].id
    requires d.calls[k].pendingAfter == c.calls[k].pendingAfter
    requires d.calls[k].future == c.calls[k].future && (!d.calls[k].future.Unset? || d.calls[k].stage.Popped?)
    ensures Books(d)
  {
    forall j | 0 <= j < |c.calls| && j != k ensures d.calls[j] == c.calls[j] && (InTracker(d, j) <==> InTracker(c, j)) {
      assert InTracker(c, j) ==> c.calls[j].id != c.calls[k].id;
    }
    assert !InTracker(d, k);
  }

  lemma SendBooks(c: Client, a: Action)
    requires a.SendHead? && Books(c) && c.sendQueue != []
    requires c.sendQueue[0].tag < |c.calls| && MessageOk(c.calls[c.sendQueue[0].tag], c.sendQueue[0])
    ensures Books(Act(c, a))
  {
    if !a.sent && c.sendQueue[0].Request? {
      CallBooks(c, Act(c, a), c.sendQueue[0].tag);
    }
  }

  lemma TakeBooks(c: Client, i: Identity, tasks: map<nat, Task>, a: Action)
    requires a.TakeReply? && DownOk(c.calls, c.downlink)
    requires c.downlink != [] && c.downlink[0].Reply? ==> OwnsEntry(c, c.downlink[0].tag)
    requires Books(c) && CanAct(c, i, tasks, a)
    ensures Books(Act(c, a))
  {}

  lemma EmptiedBooks(c: Client)
    requires Books(c)
    ensures Books(Emptied(c))
  {}

  lemma ClosedBooks(e: Client)
    requires Books(e) && e.pending == map[] && e.closed
    ensures Books(e.(trackerClosed := true))
  {}

  /** The table never holds more entries than calls were made. */
  lemma TableSize(c: Client)
    requires PendingOk(c)
    ensures |c.pending.Keys| <= |c.calls|
  {
    EntriesSize(c.pending, |c.calls|);
  }

  lemma {:induction false} EntriesSize(pending: map<Id, nat>, n: nat)
    requires forall id | id in pending :: pending[id] < n
    requires forall a, b | a in pending && b in pending && pending[a] == pending[b] :: a == b
    ensures |pending.Keys| <= n
  {
    if n == 0 {
      assert pending.Keys == {};
    } else if id :| id in pending && pending[id] == n - 1 {
      assert pending.Keys == (pending - {id}).Keys + {id};
      EntriesSize(pending - {id}, n - 1);
    } else {
      EntriesSize(pending, n - 1);
    }
  }

  lemma NewCallBooks(c: Client, d: Client, x: Call)
    requires Books(c) && x.id !in c.pending && CallOk(x) && x.stage == Allocated && x.future == Unset
    requires d.calls == c.calls + [x] && d.pending == c.pending[x.id := |c.calls|]
    requires d.closed == c.closed && d.running == c.running
    requires d.trackerClosed == c.trackerClosed && d.resolving == c.resolving
    requires x.pendingAfter <= |c.calls| + 1
    ensures Books(d)
  {
    forall k | 0 <= k < |c.calls| ensures d.calls[k] == c.calls[k] && (InTracker(d, k) <==> InTracker(c, k)) {
      assert c.calls[k].id == x.id ==> !InTracker(c, k);
    }
  }

  lemma AllocateBooks(c: Client, a: Action)
    requires a.Allocate? && Books(c) && c.entered > 0 && a.id !in c.pending && a.command != CANCEL_REQUEST
    ensures Books(Act(c, a))
  {
    var d := Act(c, a);
    TableSize(c);
    assert d.pending.Keys == c.pending.Keys + {a.id};
    var x := Call(a.id, |d.pending.Keys|, a.command, Allocated, Unset, Unsent, 0, 0);
    assert d.calls == c.calls + [x];
    NewCallBooks(c, d, x);
  }

  // ----- Client steps: the wires

  /** Steps that leave the channels alone and only take entries out of the tracker. */
  lemma WiresKept(c: Client, d: Client, i: Identity, tasks: map<nat, Task>)
    requires Wires(c, i, tasks)
    requires d.cursor == c.cursor && d.pending.Keys <= c.pending.Keys
    requires forall id | id in d.pending :: d.pending[id] == c.pending[id]
    requires Outbound(d) == Outbound(c) && d.downlink == c.downlink
    requires d.resolving == c.resolving || d.resolving.None?
    requires |d.calls| == |c.calls| && forall k | 0 <= k < |c.calls| :: SameTraffic(c.calls[k], d.calls[k])
    requires forall k | 0 <= k < |c.calls| :: ThreadHolds(d.calls[k]) ==> Alive(c, i, tasks, k)
    ensures Wires(d, i, tasks)
  {
    RingKept(c, d);
    TrafficKept(c, d, i, tasks);
    forall k | 0 <= k < |d.calls| && Alive(d, i, tasks, k) ensures Alive(c, i, tasks, k) {}
    DistinctKept(c, d, i, tasks, tasks);
  }

  lemma StageWires(c: Client, i: Identity, tasks: map<nat, Task>, a: Action)
    requires a.TestFlags? || a.FailToEncode? || a.Strand? || (a.Enqueue? && !a.accepted) || a.FailFuture?
             || a.UserCancel? || (a.QueueCancel? && !a.sent) || a.CompleteReply?
    requires Books(c) && Wires(c, i, tasks) && CanAct(c, i, tasks, a)
    ensures Wires(Act(c, a), i, tasks)
  {
    var d := Act(c, a);
    var k := if a.CompleteReply? then c.resolving.value.entry else a.k;
    assert d.calls == c.calls[k := d.calls[k]];
    forall j | 0 <= j < |c.calls| && ThreadHolds(d.calls[j]) ensures Alive(c, i, tasks, j) {
      if j != k {
        assert ThreadHolds(c.calls[j]);
      }
    }
    WiresKept(c, d, i, tasks);
  }

  lemma FlagWires(c: Client, i: Identity, tasks: map<nat, Task>, a: Action)
    requires a.Enter? || a.StopWorker? || a.CloseFlags?
    requires Wires(c, i, tasks)
    ensures Wires(Act(c, a), i, tasks)
  {
    WiresKept(c, Act(c, a), i, tasks);
  }

  lemma PopWires(c: Client, i: Identity, tasks: map<nat, Task>, a: Action)
    requires a.PopFailed? || a.CancelPop?
    requires Books(c) && Wires(c, i, tasks) && CanAct(c, i, tasks, a) && OwnsEntry(c, a.k)
    ensures Wires(Act(c, a), i, tasks)
  {
    var d := Act(c, a);
    if a.CancelPop? {
      CancelPopIsLocal(c, a);
    }
    assert d.calls == c.calls[a.k := d.calls[a.k]];
    forall j | 0 <= j < |c.calls| && ThreadHolds(d.calls[j]) ensures Alive(c, i, tasks, j) {
      assert ThreadHolds(c.calls[j]);
    }
    WiresKept(c, d, i, tasks);
  }

  lemma EmptiedWires(c: Client, i: Identity, tasks: map<nat, Task>)
    requires Wires(c, i, tasks)
    ensures Wires(Emptied(c), i, tasks) && Wires(Emptied(c).(trackerClosed := true), i, tasks)
  {
    WiresKept(c, Emptied(c), i, tasks);
    WiresKept(c, Emptied(c).(trackerClosed := true), i, tasks);
  }

  lemma TakeWires(c: Client, i: Identity, tasks: map<nat, Task>, a: Action)
    requires a.TakeReply? && Wires(c, i, tasks) && CanAct(c, i, tasks, a)
    requires c.downlink[0].Reply? ==> c.downlink[0].tag < |c.calls| && OwnsEntry(c, c.downlink[0].tag)
    ensures Wires(Act(c, a), i, tasks)
  {
    var d := Act(c, a);
    RingKept(c, d);
    assert Outbound(d) == Outbound(c) && d.calls == c.calls;
    forall k | 0 <= k < |d.calls| && Alive(d, i, tasks, k) ensures Alive(c, i, tasks, k) {
      if InDeliveries(d.downlink, k) {
        assert InDeliveries(c.downlink, k);
      } else if d.resolving != c.resolving && d.resolving.value.entry == k {
        assert c.downlink[0].tag == k;
        assert InDeliveries(c.downlink, k);
      }
    }
    DistinctKept(c, d, i, tasks, tasks);
  }

  lemma MessageAppended(calls: seq<Call>, calls': seq<Call>, q: seq<Message>, m: Message)
    requires OutboundOk(calls, q) && |calls| == |calls'|
    requires forall x | x in q :: MessageOk(calls'[x.tag], x)
    requires m.tag < |calls'| && MessageOk(calls'[m.tag], m)
    requires m.Request? ==> forall x | x in q :: x.tag != m.tag
    ensures OutboundOk(calls', q + [m])
  {}

  /** A thread that still holds a call queues a message for it. */
  lemma MessageSent(c: Client, d: Client, i: Identity, tasks: map<nat, Task>, k: nat, m: Message)
    requires RingOk(c) && OutboundOk(c.calls, Outbound(c)) && Distinct(c, i, tasks)
    requires k < |c.calls| == |d.calls| && ThreadHolds(c.calls[k]) && m.tag == k
    requires d.calls == c.calls[k := d.calls[k]]
    requires d.calls[k].id == c.calls[k].id && d.calls[k].pendingAfter == c.calls[k].pendingAfter
    requires d.pending == c.pending && d.cursor == c.cursor
    requires Outbound(d) == Outbound(c) + [m] && d.downlink == c.downlink && d.resolving == c.resolving
    requires MessageOk(d.calls[k], m)
    requires d.calls[k].phase == c.calls[k].phase || c.calls[k].phase == Unsent
    requires m.Request? ==> forall x | x in Outbound(c) :: x.tag != k
    ensures RingOk(d) && OutboundOk(d.calls, Outbound(d)) && Distinct(d, i, tasks)
  {
    RingKept(c, d);
    forall x | x in Outbound(c) ensures MessageOk(d.calls[x.tag], x) {
      assert MessageOk(c.calls[x.tag], x);
    }
    MessageAppended(c.calls, d.calls, Outbound(c), m);
    forall j | 0 <= j < |d.calls| && Alive(d, i, tasks, j) ensures Alive(c, i, tasks, j) {
      if j != k && InMessages(Outbound(d), j) {
        assert InMessages(Outbound(c), j);
      }
    }
    DistinctKept(c, d, i, tasks, tasks);
  }

  lemma EnqueueWires(c: Client, i: Identity, tasks: map<nat, Task>, a: Action)
    requires a.Enqueue? && a.accepted && Books(c) && Wires(c, i, tasks) && CanAct(c, i, tasks, a)
    ensures Wires(Act(c, a), i, tasks)
  {
    var d, m := Act(c, a), Request(c.calls[a.k].id, a.k);
    assert Outbound(d) == Outbound(c) + [m];
    MessageSent(c, d, i, tasks, a.k, m);
  }

  lemma QueueCancelWires(c: Client, i: Identity, tasks: map<nat, Task>, a: Action)
    requires a.QueueCancel? && a.sent && Books(c) && Wires(c, i, tasks) && CanAct(c, i, tasks, a)
    ensures Wires(Act(c, a), i, tasks)
  {
    var d, m := Act(c, a), CancelMessage(c.calls[a.k].id, a.k);
    assert Outbound(d) == Outbound(c) + [m];
    MessageSent(c, d, i, tasks, a.k, m);
  }

  lemma SendWires(c: Client, i: Identity, tasks: map<nat, Task>, a: Action)
    requires a.SendHead? && a.sent && Wires(c, i, tasks) && c.sendQueue != []
    ensures Wires(Act(c, a), i, tasks)
  {
    var d := Act(c, a);
    assert Outbound(d) == Outbound(c);
    RingKept(c, d);
    DistinctKept(c, d, i, tasks, tasks);
  }

  /** A message leaves the client's side from position `at`; at most the call it requests is touched. */
  lemma MessageLeft(c: Client, d: Client, at: nat)
    requires OutboundOk(c.calls, Outbound(c)) && at < |Outbound(c)|
    requires Outbound(d) == Outbound(c)[..at] + Outbound(c)[at + 1..]
    requires |d.calls| == |c.calls|
    requires forall k | 0 <= k < |c.calls| ::
               || d.calls[k] == c.calls[k]
               || (Outbound(c)[at] == Request(c.calls[k].id, k) && d.calls[k].id == c.calls[k].id
                   && d.calls[k].stage == c.calls[k].stage)
    ensures OutboundOk(d.calls, Outbound(d))
    ensures forall k | InMessages(Outbound(d), k) :: InMessages(Outbound(c), k)
  {}

  /** The head of the send queue is lost: only the phase of its call changes. */
  lemma LoseWires(c: Client, i: Identity, tasks: map<nat, Task>, a: Action)
    requires a.SendHead? && !a.sent && Wires(c, i, tasks) && c.sendQueue != []
    ensures Wires(Act(c, a), i, tasks)
  {
    var d, m, at := Act(c, a), c.sendQueue[0], |c.uplink|;
    assert Outbound(c)[at] == m && Outbound(d) == Outbound(c)[..at] + Outbound(c)[at + 1..];
    assert m in Outbound(c) && MessageOk(c.calls[m.tag], m);
    MessageLeft(c, d, at);
    RingKept(c, d);
    QueuedCallMoves(c, d, i, tasks);
    LostDistinct(c, d, i, tasks);
  }

  /** Handlers and replies do not notice what happens to a call that is still queued. */
  lemma QueuedCallMoves(c: Client, d: Client, i: Identity, tasks: map<nat, Task>)
    requires TasksOk(c.calls, i, tasks) && DownOk(c.calls, c.downlink) && d.downlink == c.downlink
    requires |d.calls| == |c.calls|
    requires forall k | 0 <= k < |c.calls| ::
               || d.calls[k] == c.calls[k]
               || (c.calls[k].phase.Queued? && d.calls[k].id == c.calls[k].id
                   && d.calls[k].replies == c.calls[k].replies)
    ensures TasksOk(d.calls, i, tasks) && DownOk(d.calls, d.downlink)
  {}

  lemma LostDistinct(c: Client, d: Client, i: Identity, tasks: map<nat, Task>)
    requires Distinct(c, i, tasks) && SameIds(c, d)
    requires forall k | 0 <= k < |c.calls| :: d.calls[k].stage == c.calls[k].stage
    requires forall k | InMessages(Outbound(d), k) :: InMessages(Outbound(c), k)
    requires d.pending == c.pending && d.downlink == c.downlink && d.resolving == c.resolving
    ensures Distinct(d, i, tasks)
  {}

  // ----- Allocation

  lemma RingAllocates(c: Client, d: Client, id: Id)
    requires RingOk(c) && IsFirstFree(c.cursor, c.pending.Keys, id)
    requires |d.calls| == |c.calls| + 1 && d.calls[..|c.calls|] == c.calls
    requires d.cursor == Successor(id) && d.pending.Keys == c.pending.Keys + {id}
    requires d.calls[|c.calls|].id == id && d.calls[|c.calls|].pendingAfter == |d.pending.Keys|
    ensures RingOk(d)
  {
    forall k | 0 <= k < |d.calls| ensures RingOkAt(d, k) {
      if k == |c.calls| {
        PotentialStarts(id, d.pending.Keys);
      } else {
        assert RingOkAt(c, k) && d.calls[k] == c.calls[k];
        var x := c.calls[k];
        if Since(d, k) <= MAX_ID - x.pendingAfter {
          AllocationKeepsAway(x.id, x.pendingAfter, Since(c, k), c.cursor, c.pending.Keys, id);
        }
      }
    }
  }

  /** The bound on reuse is what keeps the new id apart from everything still around. */
  lemma NewIdIsDistinct(c: Client, i: Identity, tasks: map<nat, Task>, id: Id, k: nat)
    requires RingOk(c) && IsFirstFree(c.cursor, c.pending.Keys, id) && ReuseBound(c, i, tasks)
    requires k < |c.calls| && Alive(c, i, tasks, k)
    ensures c.calls[k].id != id
  {
    if !InTracker(c, k) {
      assert RingOkAt(c, k) && Present(c, i, tasks, k);
      var x := c.calls[k];
      AllocationKeepsAway(x.id, x.pendingAfter, Since(c, k), c.cursor, c.pending.Keys, id);
    }
  }

  lemma NewCallDistinct(c: Client, d: Client, i: Identity, tasks: map<nat, Task>, id: Id)
    requires RingOk(c) && IsFirstFree(c.cursor, c.pending.Keys, id) && ReuseBound(c, i, tasks)
    requires Distinct(c, i, tasks)
    requires |d.calls| == |c.calls| + 1 && d.calls[..|c.calls|] == c.calls && d.calls[|c.calls|].id == id
    requires d.pending == c.pending[id := |c.calls|]
    requires Outbound(d) == Outbound(c) && d.downlink == c.downlink && d.resolving == c.resolving
    ensures Distinct(d, i, tasks)
  {
    forall j | 0 <= j < |c.calls| && Alive(d, i, tasks, j) ensures Alive(c, i, tasks, j) && d.calls[j] == c.calls[j] {
      assert d.calls[j] == d.calls[..|c.calls|][j];
    }
    forall j, k | 0 <= j < k < |d.calls| && Alive(d, i, tasks, j) && Alive(d, i, tasks, k)
      ensures d.calls[j].id != d.calls[k].id
    {
      if k == |c.calls| {
        NewIdIsDistinct(c, i, tasks, id, j);
      }
    }
  }

  lemma AllocateWires(c: Client, i: Identity, tasks: map<nat, Task>, a: Action)
    requires a.Allocate? && Wires(c, i, tasks) && CanAct(c, i, tasks, a)
    ensures Wires(Act(c, a), i, tasks)
  {
    var d := Act(c, a);
    assert Outbound(d) == Outbound(c) && d.calls[..|c.calls|] == c.calls;
    RingAllocates(c, d, a.id);
    NewCallDistinct(c, d, i, tasks, a.id);
    assert forall k | 0 <= k < |c.calls| :: d.calls[k] == c.calls[k];
  }

  // ----- All client steps

  lemma PresentOwnsEntry(c: Client, i: Identity, tasks: map<nat, Task>, k: nat)
    requires PendingOk(c) && Distinct(c, i, tasks) && k < |c.calls| && Present(c, i, tasks, k)
    ensures OwnsEntry(c, k)
  {}

  lemma ActKeeps(c: Client, i: Identity, tasks: map<nat, Task>, a: Action)
    requires ClientInv(c, i, tasks) && CanAct(c, i, tasks, a)
    ensures ClientInv(Act(c, a), i, tasks)
  {
    match a
    case Enter => FlagBooks(c, i, tasks, a); FlagWires(c, i, tasks, a);
    case Allocate(_, _) => AllocateBooks(c, a); AllocateWires(c, i, tasks, a);
    case TestFlags(_) => TestFlagsBooks(c, a); StageWires(c, i, tasks, a);
    case FailToEncode(_) => LeaveBooks(c, i, tasks, a); StageWires(c, i, tasks, a);
    case Strand(_) => LeaveBooks(c, i, tasks, a); StageWires(c, i, tasks, a);
    case Enqueue(_, accepted) =>
      EnqueueBooks(c, a);
      if accepted { EnqueueWires(c, i, tasks, a); } else { StageWires(c, i, tasks, a); }
    case PopFailed(k) =>
      PresentOwnsEntry(c, i, tasks, k);
      PopBooks(c, a); PopWires(c, i, tasks, a);
    case FailFuture(_) => FailFutureBooks(c, a); StageWires(c, i, tasks, a);
    case UserCancel(_) => UserCancelBooks(c, a); StageWires(c, i, tasks, a);
    case CancelPop(k) =>
      PresentOwnsEntry(c, i, tasks, k);
      CancelPopBooks(c, a); PopWires(c, i, tasks, a);
    case QueueCancel(_, sent) =>
      QueueCancelBooks(c, a);
      if sent { QueueCancelWires(c, i, tasks, a); } else { StageWires(c, i, tasks, a); }
    case SendHead(sent) =>
      assert c.sendQueue[0] in Outbound(c);
      SendBooks(c, a);
      if sent { SendWires(c, i, tasks, a); } else { LoseWires(c, i, tasks, a); }
    case TakeReply(_) =>
      if c.downlink[0].Reply? {
        assert InDeliveries(c.downlink, c.downlink[0].tag);
        PresentOwnsEntry(c, i, tasks, c.downlink[0].tag);
      }
      TakeBooks(c, i, tasks, a); TakeWires(c, i, tasks, a);
    case CompleteReply(_) => FlagBooks(c, i, tasks, a); StageWires(c, i, tasks, a);
    case StopWorker => FlagBooks(c, i, tasks, a); FlagWires(c, i, tasks, a);
    case WorkerCleanup => EmptiedBooks(c); EmptiedWires(c, i, tasks);
    case CloseFlags => FlagBooks(c, i, tasks, a); FlagWires(c, i, tasks, a);
    case CloseTracker => EmptiedBooks(c); ClosedBooks(Emptied(c)); EmptiedWires(c, i, tasks);
  }

  // ----- The server

  /** The registered handlers of a client. */
  function Running(tasks: map<nat, Task>, i: Identity): set<nat> {
    set t | t in tasks && tasks[t].registered && tasks[t].identity == i
  }

  function Key(task: Task): (Identity, int) {
    (task.identity, task.id as int)
  }

  predicate TasksKnown(s: State) {
    forall t | t in s.tasks ::
      t < s.nextTask && s.tasks[t].identity in s.clients && (s.tasks[t].cancelRequested ==> s.tasks[t].registered)
  }

  /** `_inflight_tasks` and the registered handlers are in bijection. */
  predicate InflightOk(s: State) {
    && (forall key | key in s.inflight ::
          s.inflight[key] in s.tasks && s.tasks[s.inflight[key]].registered && Key(s.tasks[s.inflight[key]]) == key)
    && (forall t | t in s.tasks && s.tasks[t].registered ::
          Key(s.tasks[t]) in s.inflight && s.inflight[Key(s.tasks[t])] == t)
  }

  /** Every session counts exactly the handlers that run. */
  ghost predicate SessionsOk(s: State) {
    forall i: Identity :: Metrics.Active(s.sessions, i) == |Running(s.tasks, i)|
  }

  ghost predicate ClientsInv(s: State) {
    forall i | i in s.clients :: ClientInv(s.clients[i], i, s.tasks)
  }

  ghost predicate Inv(s: State) {
    && ClientsInv(s)
    && TasksKnown(s)
    && InflightOk(s)
    && SessionsOk(s)
  }

  // ----- What a client notices of the handlers

  /** The handlers of client `i` in `tasks'` were all there, in the same position. */
  predicate NoNewTasks(tasks: map<nat, Task>, tasks': map<nat, Task>, i: Identity) {
    forall t | t in tasks' && tasks'[t].identity == i ::
      t in tasks && tasks[t].(cancelRequested := false) == tasks'[t].(cancelRequested := false)
  }

  lemma TasksFramed(c: Client, i: Identity, tasks: map<nat, Task>, tasks': map<nat, Task>)
    requires Wires(c, i, tasks) && NoNewTasks(tasks, tasks', i)
    ensures Wires(c, i, tasks')
  {}

  // ----- Accepting a request

  /** The request at the head of the uplink turns into a handler. */
  lemma RequestAccepted(c: Client, d: Client, i: Identity, tasks: map<nat, Task>, tasks': map<nat, Task>, t: nat)
    requires Wires(c, i, tasks) && t !in tasks && c.uplink != [] && c.uplink[0].Request?
    requires t in tasks' && tasks' == tasks[t := tasks'[t]]
    requires tasks'[t].identity == i && tasks'[t].id == c.uplink[0].id && tasks'[t].tag == c.uplink[0].tag
    requires !tasks'[t].handler.Ended? && !Answered(tasks'[t].handler)
    requires CallsOk(c)
    requires d == WithPhase(c.(uplink := c.uplink[1..]), c.uplink[0].tag, Handled(t))
    ensures Wires(d, i, tasks')
  {
    var k := c.uplink[0].tag;
    var m := Outbound(c)[0];
    assert m == c.uplink[0] && m in Outbound(c) && MessageOk(c.calls[k], m);
    assert Outbound(d) == Outbound(c)[..0] + Outbound(c)[0 + 1..];
    MessageLeft(c, d, 0);
    RingKept(c, d);
    QueuedCallMoves(c, d, i, tasks);
    assert TasksOk(d.calls, i, tasks') by {
      assert CallOk(c.calls[k]);
      assert TaskOk(d.calls[k], t, tasks'[t]);
    }
    AcceptedDistinct(c, d, i, tasks, tasks', t);
  }

  /** Only the call whose request was accepted gains a handler, and it had a message before. */
  lemma AcceptedDistinct(c: Client, d: Client, i: Identity, tasks: map<nat, Task>, tasks': map<nat, Task>, t: nat)
    requires Distinct(c, i, tasks) && SameIds(c, d) && t !in tasks && t in tasks' && tasks' == tasks[t := tasks'[t]]
    requires forall k | 0 <= k < |c.calls| :: d.calls[k].stage == c.calls[k].stage
    requires InMessages(Outbound(c), tasks'[t].tag)
    requires forall k | InMessages(Outbound(d), k) :: InMessages(Outbound(c), k)
    requires d.pending == c.pending && d.downlink == c.downlink && d.resolving == c.resolving
    ensures Distinct(d, i, tasks')
  {
    forall j | 0 <= j < |d.calls| && Alive(d, i, tasks', j) ensures Alive(c, i, tasks, j) {
      if j != tasks'[t].tag && InTasks(tasks', i, j) {
        var u :| u in tasks' && tasks'[u].identity == i && tasks'[u].tag == j;
        assert u in tasks && tasks[u].tag == j;
      }
    }
    DistinctKept(c, d, i, tasks, tasks');
  }

  lemma CancelAccepted(c: Client, d: Client, i: Identity, tasks: map<nat, Task>)
    requires Wires(c, i, tasks) && c.uplink != [] && d == c.(uplink := c.uplink[1..])
    requires c.uplink[0].CancelMessage?
    ensures Wires(d, i, tasks)
  {
    assert Outbound(d) == Outbound(c)[..0] + Outbound(c)[0 + 1..];
    MessageLeft(c, d, 0);
    RingKept(c, d);
    LostDistinct(c, d, i, tasks);
  }

  lemma PhaseBooks(c: Client, k: nat, p: Phase)
    requires Books(c) && k < |c.calls| && CallOk(c.calls[k].(phase := p))
    ensures Books(WithPhase(c, k, p))
  {}

  // ----- A handler moves on

  /** The replies counted so far are what the position of the handler says, before and after. */
  lemma ResumeCounts(h: Handler, o: Outcome)
    requires !h.Ended?
    ensures var next := Resume(h, o);
            var sent := (if Answered(h) then 1 else 0) + (if Emitted(h, o).ReplyWith? then 1 else 0);
            && (!next.Ended? ==> sent == if Answered(next) then 1 else 0)
            && (next.Ended? ==> sent == if CutShort(h, o) then 0 else 1)
  {}

  /** How handler `t`, its call and the downlink may change together. */
  predicate Advances(c: Client, d: Client, i: Identity, tasks: map<nat, Task>, tasks': map<nat, Task>, t: nat) {
    && t in tasks && tasks[t].identity == i && tasks[t].tag < |c.calls|
    && var k := tasks[t].tag;
    && var x := c.calls[k];
    && |d.calls| == |c.calls| && d.calls == c.calls[k := x.(phase := d.calls[k].phase, replies := d.calls[k].replies)]
    && d == c.(calls := d.calls, downlink := d.downlink)
    && x.replies <= d.calls[k].replies <= 1
    && (d.downlink == c.downlink || d.downlink == c.downlink + [ZeroId]
        || (d.downlink == c.downlink + [Reply(tasks[t].id, k)] && d.calls[k].replies == 1))
    && if t in tasks' then
         && tasks' == tasks[t := tasks[t].(handler := tasks'[t].handler)]
         && TaskOk(d.calls[k], t, tasks'[t])
       else
         && tasks' == tasks - {t}
         && d.calls[k].phase.Over? && !d.calls[k].phase.ending.Lost? && CallOk(d.calls[k])
  }

  lemma AdvanceBooks(c: Client, d: Client, i: Identity, tasks: map<nat, Task>, tasks': map<nat, Task>, t: nat)
    requires Books(c) && TasksOk(c.calls, i, tasks) && Advances(c, d, i, tasks, tasks', t)
    ensures Books(d)
  {}

  lemma AdvanceTraffic(c: Client, d: Client, i: Identity, tasks: map<nat, Task>, tasks': map<nat, Task>, t: nat)
    requires TasksOk(c.calls, i, tasks) && DownOk(c.calls, c.downlink) && Advances(c, d, i, tasks, tasks', t)
    ensures TasksOk(d.calls, i, tasks') && DownOk(d.calls, d.downlink)
  {}

  lemma AdvanceDistinct(c: Client, d: Client, i: Identity, tasks: map<nat, Task>, tasks': map<nat, Task>, t: nat)
    requires Distinct(c, i, tasks) && Advances(c, d, i, tasks, tasks', t)
    ensures Distinct(d, i, tasks')
  {
    var k := tasks[t].tag;
    assert Outbound(d) == Outbound(c);
    assert InTasks(tasks, i, k);
    forall j | 0 <= j < |d.calls| && Alive(d, i, tasks', j) ensures Alive(c, i, tasks, j) {
      if j == k {
        assert Present(c, i, tasks, k);
      } else if InTasks(tasks', i, j) {
        var u :| u in tasks' && tasks'[u].identity == i && tasks'[u].tag == j;
        assert u in tasks && tasks[u].tag == j;
      } else if InDeliveries(d.downlink, j) {
        var m :| m in d.downlink && m.Reply? && m.tag == j;
        assert m in c.downlink;
      }
    }
    DistinctKept(c, d, i, tasks, tasks');
  }

  lemma AdvanceOutbound(c: Client, d: Client, i: Identity, tasks: map<nat, Task>, tasks': map<nat, Task>, t: nat)
    requires OutboundOk(c.calls, Outbound(c)) && TasksOk(c.calls, i, tasks) && Advances(c, d, i, tasks, tasks', t)
    ensures OutboundOk(d.calls, Outbound(d))
  {}

  lemma AdvanceKeeps(c: Client, d: Client, i: Identity, tasks: map<nat, Task>, tasks': map<nat, Task>, t: nat)
    requires ClientInv(c, i, tasks) && Advances(c, d, i, tasks, tasks', t)
    ensures ClientInv(d, i, tasks')
  {
    AdvanceBooks(c, d, i, tasks, tasks', t);
    RingKept(c, d);
    AdvanceTraffic(c, d, i, tasks, tasks', t);
    AdvanceDistinct(c, d, i, tasks, tasks', t);
    AdvanceOutbound(c, d, i, tasks, tasks', t);
  }

  // ----- The server's tables

  lemma RunningGrows(tasks: map<nat, Task>, t: nat, task: Task, i: Identity)
    requires t !in tasks
    ensures Running(tasks[t := task], i)
            == Running(tasks, i) + if i == task.identity && task.registered then {t} else {}
    ensures t !in Running(tasks, i)
  {}

  lemma RunningStarted(s: State, tasks': map<nat, Task>, sessions': Metrics.Sessions, t: nat, task: Task, now: Time)
    requires SessionsOk(s) && t !in s.tasks && tasks' == s.tasks[t := task]
    requires sessions' == if task.registered then Metrics.Started(s.sessions, task.identity, now) else s.sessions
    ensures forall i: Identity :: Metrics.Active(sessions', i) == |Running(tasks', i)|
  {
    forall i: Identity ensures Metrics.Active(sessions', i) == |Running(tasks', i)| {
      assert Metrics.Active(s.sessions, i) == |Running(s.tasks, i)|;
      RunningGrows(s.tasks, t, task, i);
    }
  }

  /** The tables after a handler has been registered. */
  lemma TaskStarted(s: State, s': State, t: nat, task: Task, now: Time)
    requires TasksKnown(s) && InflightOk(s) && SessionsOk(s)
    requires t == s.nextTask && s'.nextTask == t + 1 && s'.clients.Keys == s.clients.Keys
    requires task.identity in s.clients && !task.cancelRequested
    requires s'.tasks == s.tasks[t := task]
    requires if task.registered then
               && Key(task) !in s.inflight
               && s'.inflight == s.inflight[Key(task) := t]
               && s'.sessions == Metrics.Started(s.sessions, task.identity, now)
             else
               s'.inflight == s.inflight && s'.sessions == s.sessions
    ensures TasksKnown(s') && InflightOk(s') && SessionsOk(s')
  {
    assert t !in s.tasks;
    RunningStarted(s, s'.tasks, s'.sessions, t, task, now);
  }

  lemma RunningShrinks(tasks: map<nat, Task>, t: nat, i: Identity)
    requires t in tasks
    ensures if i == tasks[t].identity && tasks[t].registered
            then t in Running(tasks, i) && Running(tasks - {t}, i) == Running(tasks, i) - {t}
            else Running(tasks - {t}, i) == Running(tasks, i)
  {}

  /** The tables after the `finally` of a handler: the session's counter was positive. */
  lemma TaskFinished(s: State, s': State, t: nat, now: Time)
    requires TasksKnown(s) && InflightOk(s) && SessionsOk(s) && t in s.tasks
    requires s'.nextTask == s.nextTask && s'.clients.Keys == s.clients.Keys
    requires s'.tasks == s.tasks - {t}
    requires if s.tasks[t].registered then
               && s'.inflight == s.inflight - {Key(s.tasks[t])}
               && s'.sessions == Metrics.Ended(s.sessions, s.tasks[t].identity, now)
             else
               s'.inflight == s.inflight && s'.sessions == s.sessions
    ensures TasksKnown(s') && InflightOk(s') && SessionsOk(s')
    ensures s.tasks[t].registered ==> Metrics.Active(s.sessions, s.tasks[t].identity) > 0
  {
    forall i: Identity ensures Metrics.Active(s'.sessions, i) == |Running(s'.tasks, i)| {
      assert Metrics.Active(s.sessions, i) == |Running(s.tasks, i)|;
      RunningShrinks(s.tasks, t, i);
    }
    if s.tasks[t].registered {
      assert t in Running(s.tasks, s.tasks[t].identity);
      assert Metrics.Active(s.sessions, s.tasks[t].identity) == |Running(s.tasks, s.tasks[t].identity)|;
    }
  }

  /** Neither a handler's progress nor a mark on it shows in the tables. */
  lemma TaskMoved(s: State, s': State, t: nat)
    requires TasksKnown(s) && InflightOk(s) && SessionsOk(s) && t in s.tasks
    requires s'.nextTask == s.nextTask && s'.clients.Keys == s.clients.Keys
    requires t in s'.tasks && s'.tasks == s.tasks[t := s'.tasks[t]]
    requires Key(s'.tasks[t]) == Key(s.tasks[t]) && s'.tasks[t].registered == s.tasks[t].registered
    requires s'.tasks[t].cancelRequested ==> s.tasks[t].registered
    requires s'.inflight == s.inflight
    requires forall i: Identity :: Metrics.Active(s'.sessions, i) == Metrics.Active(s.sessions, i)
    ensures TasksKnown(s') && InflightOk(s') && SessionsOk(s')
  {
    forall i: Identity ensures Metrics.Active(s'.sessions, i) == |Running(s'.tasks, i)| {
      assert Running(s'.tasks, i) == Running(s.tasks, i);
      assert Metrics.Active(s.sessions, i) == |Running(s.tasks, i)|;
    }
  }

  /** A cancel request is counted in and out again; eviction removes only sessions that count nothing. */
  lemma SessionsUnmoved(sessions: Metrics.Sessions, i: Identity, now: Time)
    ensures forall j: Identity ::
              Metrics.Active(Metrics.Ended(Metrics.Started(sessions, i, now), i, now), j) == Metrics.Active(sessions, j)
    ensures forall j: Identity :: Metrics.Active(Metrics.Evicted(sessions, now), j) == Metrics.Active(sessions, j)
  {}

  // ----- All steps

  /** A handler found under the id of a call that is still around is the handler of that very call. */
  lemma OwnHandler(s: State, i: Identity, k: nat)
    requires Inv(s) && i in s.clients && k < |s.clients[i].calls|
    requires Present(s.clients[i], i, s.tasks, k)
    ensures var key := (i, s.clients[i].calls[k].id as int);
            key in s.inflight ==>
              && s.inflight[key] in s.tasks
              && s.tasks[s.inflight[key]].identity == i && s.tasks[s.inflight[key]].tag == k
  {
    var c := s.clients[i];
    var key := (i, c.calls[k].id as int);
    if key in s.inflight {
      var t := s.inflight[key];
      var task := s.tasks[t];
      assert Key(task) == key;
      assert ClientInv(c, i, s.tasks);
      assert TaskOk(c.calls[task.tag], t, task);
      assert InTasks(s.tasks, i, task.tag);
      assert Alive(c, i, s.tasks, task.tag) && Alive(c, i, s.tasks, k);
    }
  }

  lemma HeadRequest(s: State, i: Identity)
    requires Inv(s) && i in s.clients && s.clients[i].uplink != [] && s.clients[i].uplink[0].Request?
    ensures var c, m := s.clients[i], s.clients[i].uplink[0];
            && m.tag < |c.calls| && m.id == c.calls[m.tag].id
            && CallOk(c.calls[m.tag]) && c.calls[m.tag].phase == Queued
            && (i, m.id as int) !in s.inflight
  {
    var c, m := s.clients[i], s.clients[i].uplink[0];
    assert ClientInv(c, i, s.tasks);
    assert m in Outbound(c) && MessageOk(c.calls[m.tag], m);
    OwnHandler(s, i, m.tag);
    assert forall t | t in s.tasks && s.tasks[t].identity == i :: TaskOk(c.calls[s.tasks[t].tag], t, s.tasks[t]);
  }

  /** Clients whose handlers are left alone keep their part. */
  lemma OthersKept(s: State, s': State, i: Identity)
    requires ClientsInv(s) && i in s.clients && i in s'.clients && s'.clients == s.clients[i := s'.clients[i]]
    requires forall j: Identity | j != i :: NoNewTasks(s.tasks, s'.tasks, j)
    requires ClientInv(s'.clients[i], i, s'.tasks)
    ensures ClientsInv(s')
  {
    forall j | j in s'.clients && j != i ensures ClientInv(s'.clients[j], j, s'.tasks) {
      assert ClientInv(s.clients[j], j, s.tasks);
      TasksFramed(s.clients[j], j, s.tasks, s'.tasks);
    }
  }

  lemma AcceptedClient(c: Client, d: Client, i: Identity, tasks: map<nat, Task>, tasks': map<nat, Task>, t: nat)
    requires ClientInv(c, i, tasks) && t !in tasks && c.uplink != [] && c.uplink[0].Request?
    requires t in tasks' && tasks' == tasks[t := tasks'[t]]
    requires tasks'[t].identity == i && tasks'[t].id == c.uplink[0].id && tasks'[t].tag == c.uplink[0].tag
    requires !tasks'[t].handler.Ended? && !Answered(tasks'[t].handler)
    requires d == WithPhase(c.(uplink := c.uplink[1..]), c.uplink[0].tag, Handled(t))
    ensures ClientInv(d, i, tasks')
  {
    var m := c.uplink[0];
    assert m in Outbound(c) && MessageOk(c.calls[m.tag], m) && CallOk(c.calls[m.tag]);
    RequestAccepted(c, d, i, tasks, tasks', t);
    PhaseBooks(c.(uplink := c.uplink[1..]), m.tag, Handled(t));
  }

  /** The handler a request starts with. */
  function FirstHandler(c: Client, k: nat, situation: Situation): Handler
    requires k < |c.calls|
  {
    Receive(c.admission, c.calls[k].command, situation)
  }

  lemma AcceptShape(s: State, i: Identity, situation: Situation, now: Time)
    requires i in s.clients && s.clients[i].uplink != [] && s.clients[i].uplink[0].Request?
    requires s.clients[i].uplink[0].tag < |s.clients[i].calls|
    requires !FirstHandler(s.clients[i], s.clients[i].uplink[0].tag, situation).Ended?
    ensures var c, m, t := s.clients[i], s.clients[i].uplink[0], s.nextTask;
            var s' := AcceptMessage(s, i, situation, now);
            var task := Task(i, m.id, m.tag, c.admission.Admitted?, FirstHandler(c, m.tag, situation), false);
            && s'.tasks == s.tasks[t := task] && s'.nextTask == t + 1
            && s'.clients == s.clients[i := WithPhase(c.(uplink := c.uplink[1..]), m.tag, Handled(t))]
            && s'.inflight == (if c.admission.Admitted? then s.inflight[Key(task) := t] else s.inflight)
            && s'.sessions == if c.admission.Admitted? then Metrics.Started(s.sessions, i, now) else s.sessions
  {}

  lemma AcceptRequestClients(s: State, s': State, i: Identity, task: Task)
    requires ClientsInv(s) && TasksKnown(s)
    requires i in s.clients && s.clients[i].uplink != [] && s.clients[i].uplink[0].Request?
    requires var m := s.clients[i].uplink[0]; task.identity == i && task.id == m.id && task.tag == m.tag
    requires !task.handler.Ended? && !Answered(task.handler)
    requires s'.tasks == s.tasks[s.nextTask := task]
    requires var c := s.clients[i];
             s'.clients == s.clients[i := WithPhase(c.(uplink := c.uplink[1..]), task.tag, Handled(s.nextTask))]
    ensures ClientsInv(s')
  {
    assert ClientInv(s.clients[i], i, s.tasks);
    AcceptedClient(s.clients[i], s'.clients[i], i, s.tasks, s'.tasks, s.nextTask);
    OthersKept(s, s', i);
  }

  lemma AcceptRequestTables(s: State, i: Identity, situation: Situation, now: Time)
    requires TasksKnown(s) && InflightOk(s) && SessionsOk(s)
    requires i in s.clients && s.clients[i].uplink != [] && s.clients[i].uplink[0].Request?
    requires s.clients[i].uplink[0].tag < |s.clients[i].calls|
    requires !FirstHandler(s.clients[i], s.clients[i].uplink[0].tag, situation).Ended?
    requires (i, s.clients[i].uplink[0].id as int) !in s.inflight
    ensures var s' := AcceptMessage(s, i, situation, now);
            TasksKnown(s') && InflightOk(s') && SessionsOk(s')
  {
    var s' := AcceptMessage(s, i, situation, now);
    AcceptShape(s, i, situation, now);
    TaskStarted(s, s', s.nextTask, s'.tasks[s.nextTask], now);
  }

  // ----- Accepting a request whose handler ends at once

  lemma LostShape(s: State, i: Identity, situation: Situation, now: Time)
    requires i in s.clients && s.clients[i].uplink != [] && s.clients[i].uplink[0].Request?
    requires s.clients[i].uplink[0].tag < |s.clients[i].calls|
    requires (i, s.clients[i].uplink[0].id as int) !in s.inflight
    requires FirstHandler(s.clients[i], s.clients[i].uplink[0].tag, situation).Ended?
    ensures RequestLost(s, AcceptMessage(s, i, situation, now), i, now)
  {
    assert s.inflight - {(i, s.clients[i].uplink[0].id as int)} == s.inflight;
  }

  /** The request at the head of client `i`'s uplink is gone, and its handler has left no trace. */
  predicate RequestLost(s: State, s': State, i: Identity, now: Time)
    requires i in s.clients && s.clients[i].uplink != []
  {
    var c := s.clients[i];
    && s'.tasks == s.tasks && s'.nextTask == s.nextTask && s'.inflight == s.inflight
    && s'.clients == s.clients[i := WithPhase(c.(uplink := c.uplink[1..]), c.uplink[0].tag, Over(Completed(true)))]
    && (s'.sessions == s.sessions || s'.sessions == Metrics.Ended(Metrics.Started(s.sessions, i, now), i, now))
  }

  lemma LostClient(c: Client, d: Client, i: Identity, tasks: map<nat, Task>)
    requires ClientInv(c, i, tasks) && c.uplink != [] && c.uplink[0].Request?
    requires d == WithPhase(c.(uplink := c.uplink[1..]), c.uplink[0].tag, Over(Completed(true)))
    ensures ClientInv(d, i, tasks)
  {
    var m := c.uplink[0];
    assert m in Outbound(c) && MessageOk(c.calls[m.tag], m) && CallOk(c.calls[m.tag]);
    PhaseBooks(c.(uplink := c.uplink[1..]), m.tag, Over(Completed(true)));
    LostWires(c, d, i, tasks, Over(Completed(true)));
  }

  lemma LostWires(c: Client, d: Client, i: Identity, tasks: map<nat, Task>, p: Phase)
    requires Wires(c, i, tasks) && c.uplink != [] && c.uplink[0].Request? && c.uplink[0].tag < |c.calls|
    requires c.calls[c.uplink[0].tag].phase.Queued? && c.uplink[0].id == c.calls[c.uplink[0].tag].id
    requires d == WithPhase(c.(uplink := c.uplink[1..]), c.uplink[0].tag, p)
    ensures Wires(d, i, tasks)
  {
    assert Outbound(c)[0] == c.uplink[0] && Outbound(d) == Outbound(c)[..0] + Outbound(c)[0 + 1..];
    MessageLeft(c, d, 0);
    RingKept(c, d);
    QueuedCallMoves(c, d, i, tasks);
    LostDistinct(c, d, i, tasks);
  }

  /** A handler that runs through leaves no trace in the tables. */
  lemma TablesUnmoved(s: State, s': State)
    requires TasksKnown(s) && InflightOk(s) && SessionsOk(s)
    requires s'.tasks == s.tasks && s'.nextTask == s.nextTask && s'.clients.Keys == s.clients.Keys
    requires s'.inflight == s.inflight
    requires forall j: Identity :: Metrics.Active(s'.sessions, j) == Metrics.Active(s.sessions, j)
    ensures TasksKnown(s') && InflightOk(s') && SessionsOk(s')
  {
    forall j: Identity ensures Metrics.Active(s'.sessions, j) == |Running(s'.tasks, j)| {
      assert Metrics.Active(s.sessions, j) == |Running(s.tasks, j)|;
    }
  }

  lemma LostKeeps(s: State, s': State, i: Identity, now: Time)
    requires Inv(s) && i in s.clients && s.clients[i].uplink != [] && s.clients[i].uplink[0].Request?
    requires RequestLost(s, s', i, now)
    ensures Inv(s')
  {
    SessionsUnmoved(s.sessions, i, now);
    TablesUnmoved(s, s');
    assert ClientInv(s.clients[i], i, s.tasks);
    LostClient(s.clients[i], s'.clients[i], i, s.tasks);
    OthersKept(s, s', i);
  }

  lemma AcceptRequestKeeps(s: State, i: Identity, situation: Situation, now: Time)
    requires Inv(s) && i in s.clients && s.clients[i].uplink != [] && s.clients[i].uplink[0].Request?
    ensures Inv(AcceptMessage(s, i, situation, now))
  {
    HeadRequest(s, i);
    var c, m := s.clients[i], s.clients[i].uplink[0];
    EndedAtOnce(c.admission, c.calls[m.tag].command, situation);
    if FirstHandler(c, m.tag, situation).Ended? {
      LostShape(s, i, situation, now);
      LostKeeps(s, AcceptMessage(s, i, situation, now), i, now);
    } else {
      AcceptShape(s, i, situation, now);
      AcceptRequestClients(s, AcceptMessage(s, i, situation, now), i,
                           Task(i, m.id, m.tag, c.admission.Admitted?, FirstHandler(c, m.tag, situation), false));
      AcceptRequestTables(s, i, situation, now);
    }
  }

  /** A cancel message is gone; at most the handler listed under its target is marked. */
  predicate CancelSeen(s: State, s': State, i: Identity, now: Time)
    requires i in s.clients && s.clients[i].uplink != [] && s.clients[i].uplink[0].CancelMessage?
  {
    var c, key := s.clients[i], (i, s.clients[i].uplink[0].target as int);
    && s'.clients == s.clients[i := c.(uplink := c.uplink[1..])] && s'.nextTask == s.nextTask
    && s'.inflight == s.inflight
    && (s'.sessions == s.sessions || s'.sessions == Metrics.Ended(Metrics.Started(s.sessions, i, now), i, now))
    && (|| s'.tasks == s.tasks
        || (&& key in s.inflight && s.inflight[key] in s.tasks
            && s'.tasks == s.tasks[s.inflight[key] := s.tasks[s.inflight[key]].(cancelRequested := true)]))
  }

  /** The entry under id 0 that its own handler removes was never there. */
  lemma CancelShape(s: State, i: Identity, situation: Situation, now: Time)
    requires InflightOk(s)
    requires i in s.clients && s.clients[i].uplink != [] && s.clients[i].uplink[0].CancelMessage?
    ensures CancelSeen(s, AcceptMessage(s, i, situation, now), i, now)
  {
    assert (i, 0) !in s.inflight;
    assert s.inflight - {(i, 0)} == s.inflight;
  }

  lemma AcceptCancelKeeps(s: State, i: Identity, situation: Situation, now: Time)
    requires Inv(s) && i in s.clients && s.clients[i].uplink != [] && s.clients[i].uplink[0].CancelMessage?
    ensures Inv(AcceptMessage(s, i, situation, now))
  {
    CancelShape(s, i, situation, now);
    CancelKeepsTables(s, AcceptMessage(s, i, situation, now), i, now);
    CancelKeepsClients(s, AcceptMessage(s, i, situation, now), i, now);
  }

  lemma CancelKeepsTables(s: State, s': State, i: Identity, now: Time)
    requires TasksKnown(s) && InflightOk(s) && SessionsOk(s)
    requires i in s.clients && s.clients[i].uplink != [] && s.clients[i].uplink[0].CancelMessage?
    requires CancelSeen(s, s', i, now)
    ensures TasksKnown(s') && InflightOk(s') && SessionsOk(s')
  {
    SessionsUnmoved(s.sessions, i, now);
    if s'.tasks == s.tasks {
      TablesUnmoved(s, s');
    } else {
      TaskMoved(s, s', s.inflight[(i, s.clients[i].uplink[0].target as int)]);
    }
  }

  lemma CancelKeepsClients(s: State, s': State, i: Identity, now: Time)
    requires ClientsInv(s) && i in s.clients && s.clients[i].uplink != [] && s.clients[i].uplink[0].CancelMessage?
    requires CancelSeen(s, s', i, now)
    ensures ClientsInv(s')
  {
    var c := s.clients[i];
    assert ClientInv(c, i, s.tasks);
    CancelAccepted(c, c.(uplink := c.uplink[1..]), i, s.tasks);
    TasksFramed(c.(uplink := c.uplink[1..]), i, s.tasks, s'.tasks);
    OthersKept(s, s', i);
  }

  lemma ZeroKeeps(c: Client, d: Client, i: Identity, tasks: map<nat, Task>)
    requires ClientInv(c, i, tasks) && d == c.(downlink := c.downlink + [ZeroId])
    ensures ClientInv(d, i, tasks)
  {
    assert Outbound(d) == Outbound(c);
    RingKept(c, d);
    forall k | 0 <= k < |d.calls| && Alive(d, i, tasks, k) ensures Alive(c, i, tasks, k) {
      if InDeliveries(d.downlink, k) {
        assert InDeliveries(c.downlink, k);
      }
    }
    DistinctKept(c, d, i, tasks, tasks);
  }

  /** The client and the handler after one progress step. */
  function ProgressClient(c: Client, task: Task, o: Outcome): Client {
    var emitted := Emit(c, task, Emitted(task.handler, o));
    if Resume(task.handler, o).Ended?
    then WithPhase(emitted, task.tag, Over(Completed(CutShort(task.handler, o))))
    else emitted
  }

  function ProgressTasks(tasks: map<nat, Task>, t: nat, o: Outcome): map<nat, Task>
    requires t in tasks
  {
    var next := Resume(tasks[t].handler, o);
    if next.Ended? then tasks - {t} else tasks[t := tasks[t].(handler := next)]
  }

  /** What an emission does to the call it may answer. */
  lemma EmitShape(c: Client, task: Task, e: Emission)
    requires task.tag < |c.calls|
    ensures var d, k := Emit(c, task, e), task.tag;
            && d == c.(calls := d.calls, downlink := d.downlink)
            && d.calls == c.calls[k := c.calls[k].(replies := c.calls[k].replies + if e.ReplyWith? then 1 else 0)]
            && d.downlink == c.downlink + match e
                                          case Nothing => []
                                          case StoredEvent => [ZeroId]
                                          case ReplyWith(_) => [Reply(task.id, k)]
  {}

  /** The same, knowing only what the handler emitted and where it went. */
  lemma EmissionAdvances(c: Client, i: Identity, tasks: map<nat, Task>, t: nat, e: Emission, next: Handler,
                         gaveUp: bool)
    requires t in tasks && tasks[t].identity == i && tasks[t].tag < |c.calls|
    requires CallOk(c.calls[tasks[t].tag]) && TaskOk(c.calls[tasks[t].tag], t, tasks[t])
    requires var sent := c.calls[tasks[t].tag].replies + (if e.ReplyWith? then 1 else 0);
             && (!next.Ended? ==> sent == if Answered(next) then 1 else 0)
             && (next.Ended? ==> sent == if gaveUp then 0 else 1)
    ensures var d := Emit(c, tasks[t], e);
            if next.Ended? then
              Advances(c, WithPhase(d, tasks[t].tag, Over(Completed(gaveUp))), i, tasks, tasks - {t}, t)
            else
              Advances(c, d, i, tasks, tasks[t := tasks[t].(handler := next)], t)
  {
    EmitShape(c, tasks[t], e);
    assert c.downlink + [] == c.downlink;
  }

  lemma ProgressAdvances(c: Client, i: Identity, tasks: map<nat, Task>, t: nat, o: Outcome)
    requires t in tasks && tasks[t].identity == i && tasks[t].tag < |c.calls|
    requires CallOk(c.calls[tasks[t].tag]) && TaskOk(c.calls[tasks[t].tag], t, tasks[t])
    ensures Advances(c, ProgressClient(c, tasks[t], o), i, tasks, ProgressTasks(tasks, t, o), t)
  {
    var h := tasks[t].handler;
    ResumeCounts(h, o);
    EmissionAdvances(c, i, tasks, t, Emitted(h, o), Resume(h, o), CutShort(h, o));
  }

  lemma TaskOfClient(s: State, t: nat)
    requires Inv(s) && t in s.tasks
    ensures var task := s.tasks[t];
            && task.identity in s.clients
            && var c := s.clients[task.identity];
            && ClientInv(c, task.identity, s.tasks)
            && task.tag < |c.calls| && CallOk(c.calls[task.tag]) && TaskOk(c.calls[task.tag], t, task)
  {}

  lemma ProgressTables(s: State, t: nat, o: Outcome, now: Time)
    requires TasksKnown(s) && InflightOk(s) && SessionsOk(s) && t in s.tasks
    ensures var s' := ProgressTask(s, t, o, now);
            TasksKnown(s') && InflightOk(s') && SessionsOk(s')
  {
    var s' := ProgressTask(s, t, o, now);
    if Resume(s.tasks[t].handler, o).Ended? {
      TaskFinished(s, s', t, now);
    } else {
      TaskMoved(s, s', t);
    }
  }

  lemma ProgressShape(s: State, t: nat, o: Outcome, now: Time)
    requires t in s.tasks && s.tasks[t].identity in s.clients
    ensures var i, s' := s.tasks[t].identity, ProgressTask(s, t, o, now);
            && s'.tasks == ProgressTasks(s.tasks, t, o)
            && s'.clients == s.clients[i := ProgressClient(s.clients[i], s.tasks[t], o)]
  {}

  lemma TaskStepClients(s: State, s': State, t: nat, d: Client)
    requires ClientsInv(s) && t in s.tasks && s.tasks[t].identity in s.clients
    requires s'.clients == s.clients[s.tasks[t].identity := d]
    requires Advances(s.clients[s.tasks[t].identity], d, s.tasks[t].identity, s.tasks, s'.tasks, t)
    ensures ClientsInv(s')
  {
    var i := s.tasks[t].identity;
    AdvanceKeeps(s.clients[i], d, i, s.tasks, s'.tasks, t);
    OthersKept(s, s', i);
  }

  lemma ProgressKeeps(s: State, t: nat, o: Outcome, now: Time)
    requires Inv(s) && t in s.tasks
    ensures Inv(ProgressTask(s, t, o, now))
  {
    TaskOfClient(s, t);
    var i := s.tasks[t].identity;
    ProgressAdvances(s.clients[i], i, s.tasks, t, o);
    ProgressShape(s, t, o, now);
    TaskStepClients(s, ProgressTask(s, t, o, now), t, ProgressClient(s.clients[i], s.tasks[t], o));
    ProgressTables(s, t, o, now);
  }

  lemma UnwindTables(s: State, t: nat, now: Time)
    requires TasksKnown(s) && InflightOk(s) && SessionsOk(s) && t in s.tasks
    ensures var s' := EndTask(s, t, Interrupted, now);
            TasksKnown(s') && InflightOk(s') && SessionsOk(s')
  {
    TaskFinished(s, EndTask(s, t, Interrupted, now), t, now);
  }

  lemma UnwindAdvances(c: Client, i: Identity, tasks: map<nat, Task>, t: nat)
    requires t in tasks && tasks[t].identity == i && tasks[t].tag < |c.calls|
    requires CallOk(c.calls[tasks[t].tag]) && TaskOk(c.calls[tasks[t].tag], t, tasks[t])
    ensures Advances(c, WithPhase(c, tasks[t].tag, Over(Interrupted)), i, tasks, tasks - {t}, t)
  {}

  lemma UnwindKeeps(s: State, t: nat, now: Time)
    requires Inv(s) && t in s.tasks
    ensures Inv(EndTask(s, t, Interrupted, now))
  {
    TaskOfClient(s, t);
    var i := s.tasks[t].identity;
    var d := WithPhase(s.clients[i], s.tasks[t].tag, Over(Interrupted));
    UnwindAdvances(s.clients[i], i, s.tasks, t);
    TaskStepClients(s, EndTask(s, t, Interrupted, now), t, d);
    UnwindTables(s, t, now);
  }

  lemma ClientStepKeeps(s: State, i: Identity, a: Action)
    requires Inv(s) && Enabled(s, ClientStep(i, a))
    ensures Inv(Apply(s, ClientStep(i, a)))
  {
    assert ClientInv(s.clients[i], i, s.tasks);
    ActKeeps(s.clients[i], i, s.tasks, a);
    OthersKept(s, Apply(s, ClientStep(i, a)), i);
  }

  lemma SendZeroKeeps(s: State, i: Identity)
    requires Inv(s) && i in s.clients
    ensures Inv(Apply(s, SendZero(i)))
  {
    assert ClientInv(s.clients[i], i, s.tasks);
    ZeroKeeps(s.clients[i], Apply(s, SendZero(i)).clients[i], i, s.tasks);
    OthersKept(s, Apply(s, SendZero(i)), i);
  }

  /** Every step keeps the invariant. */
  lemma StepKeeps(s: State, step: Step)
    requires Inv(s) && Enabled(s, step)
    ensures Inv(Apply(s, step))
  {
    match step
    case ClientStep(i, action) => ClientStepKeeps(s, i, action);
    case Accept(i, situation, now) =>
      if s.clients[i].uplink[0].Request? {
        AcceptRequestKeeps(s, i, situation, now);
      } else {
        AcceptCancelKeeps(s, i, situation, now);
      }
    case Progress(t, outcome, now) => ProgressKeeps(s, t, outcome, now);
    case Unwind(t, now) => UnwindKeeps(s, t, now);
    case SendZero(i) => SendZeroKeeps(s, i);
    case Snapshot(now) => SessionsUnmoved(s.sessions, [], now);
  }

  lemma InitialInv(identities: map<Identity, Admission>)
    ensures Inv(Initial(identities))
  {}

  /** ... so it holds after every run. */
  lemma {:induction false} RunKeeps(s: State, steps: seq<Step>)
    requires Inv(s) && IsRun(s, steps)
    ensures Inv(Last(s, steps))
    decreases steps
  {
    if steps != [] {
      StepKeeps(s, steps[0]);
      RunKeeps(Apply(s, steps[0]), steps[1..]);
    }
  }
}
