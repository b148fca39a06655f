/**
 What holds in every run of the protocol: handlers finishing in any order, cancellations, failing sends, dying
 workers and `close` at any point. Runs start from `Initial` and keep the bound on id reuse stated in
 `Protocol.ReuseBound`.
 */
module ProtocolTheorems {
  import opened IdRing
  import opened Wire
  import opened Handlers
  import opened Protocol
  import opened ProtocolInvariant
  import Metrics

  /** The state after a run that starts with nothing sent. */
  ghost predicate Reached(identities: map<Identity, Admission>, steps: seq<Step>, s: State) {
    IsRun(Initial(identities), steps) && s == Last(Initial(identities), steps)
  }

  lemma ReachedInv(identities: map<Identity, Admission>, steps: seq<Step>, s: State)
    requires Reached(identities, steps, s)
    ensures Inv(s)
  {
    InitialInv(identities);
    RunKeeps(Initial(identities), steps);
  }

  // ----- Replies and futures

  /** A future that holds a result holds the answer to its own request. */
  lemma ResultsAreOwn(identities: map<Identity, Admission>, steps: seq<Step>, s: State, i: Identity, k: nat)
    requires Reached(identities, steps, s) && i in s.clients && k < |s.clients[i].calls|
    ensures s.clients[i].calls[k].future.Result? ==> s.clients[i].calls[k].future.answerTo == k
  {
    ReachedInv(identities, steps, s);
    assert ClientInv(s.clients[i], i, s.tasks);
  }

  /** No id is shared by two calls that are still around. */
  lemma LiveIdsDiffer(identities: map<Identity, Admission>, steps: seq<Step>, s: State, i: Identity, j: nat, k: nat)
    requires Reached(identities, steps, s) && i in s.clients
    requires j < |s.clients[i].calls| && k < |s.clients[i].calls| && j != k
    requires Alive(s.clients[i], i, s.tasks, j) && Alive(s.clients[i], i, s.tasks, k)
    ensures s.clients[i].calls[j].id != s.clients[i].calls[k].id
  {
    ReachedInv(identities, steps, s);
    assert ClientInv(s.clients[i], i, s.tasks);
  }

  /** The head of the downlink is received: it takes the entry of its own call, if that is there, or nothing. */
  predicate OwnEntryTaken(c: Client, d: Client, dispatched: bool)
    requires c.downlink != []
  {
    var head := c.downlink[0];
    if dispatched && head.Reply? && head.tag < |c.calls| && InTracker(c, head.tag) then
      d == c.(downlink := c.downlink[1..], pending := c.pending - {c.calls[head.tag].id},
              resolving := Some(Taken(head.tag, head.tag)))
    else
      d == c.(downlink := c.downlink[1..])
  }

  lemma TakesOwnEntry(s: State, i: Identity, dispatched: bool)
    requires Inv(s) && Enabled(s, ClientStep(i, TakeReply(dispatched)))
    ensures OwnEntryTaken(s.clients[i], Act(s.clients[i], TakeReply(dispatched)), dispatched)
  {
    var c := s.clients[i];
    assert ClientInv(c, i, s.tasks);
    if c.downlink[0].Reply? {
      assert InDeliveries(c.downlink, c.downlink[0].tag);
      PresentOwnsEntry(c, i, s.tasks, c.downlink[0].tag);
    }
  }

  /**
   A reply takes the entry of the call it answers, or nothing at all: when that call has left the tracker, because it
   was cancelled, rejected or answered before, the reply is dropped. Traffic under id 0 takes nothing.
   */
  lemma ReplyTakesOwnEntry(identities: map<Identity, Admission>, steps: seq<Step>, s: State, i: Identity,
                           dispatched: bool)
    requires Reached(identities, steps, s) && Enabled(s, ClientStep(i, TakeReply(dispatched)))
    ensures OwnEntryTaken(s.clients[i], Act(s.clients[i], TakeReply(dispatched)), dispatched)
  {
    ReachedInv(identities, steps, s);
    TakesOwnEntry(s, i, dispatched);
  }

  /** Call `k` keeps a future that is set, its reply count and its phase. */
  predicate Spared(c: Client, d: Client, k: nat)
    requires k < |c.calls|
  {
    && k < |d.calls|
    && (!c.calls[k].future.Unset? ==> d.calls[k].future == c.calls[k].future)
    && d.calls[k].replies == c.calls[k].replies
    && d.calls[k].phase == c.calls[k].phase
  }

  lemma ThreadActSpares(c: Client, a: Action, k: nat)
    requires a.TestFlags? || a.FailToEncode? || a.Strand? || a.PopFailed? || a.FailFuture? || a.UserCancel?
             || a.QueueCancel?
    requires Applies(c, a) && k < |c.calls|
    ensures Spared(c, Act(c, a), k)
  {}

  lemma CancelPopSpares(c: Client, a: Action, k: nat)
    requires a.CancelPop? && Applies(c, a) && k < |c.calls|
    ensures Spared(c, Act(c, a), k)
  {}

  lemma WorkerActSpares(c: Client, a: Action, k: nat)
    requires a.TakeReply? || a.CompleteReply? || a.WorkerCleanup? || a.CloseTracker?
    requires Applies(c, a) && k < |c.calls|
    ensures Spared(c, Act(c, a), k)
  {}

  lemma FlagActSpares(c: Client, a: Action, k: nat)
    requires a.Enter? || a.Allocate? || a.StopWorker? || a.CloseFlags?
    requires Applies(c, a) && k < |c.calls|
    ensures Spared(c, Act(c, a), k)
  {}

  lemma EnqueueSpares(c: Client, a: Action, k: nat)
    requires a.Enqueue? && Applies(c, a) && k < |c.calls|
    ensures var d := Act(c, a);
            && k < |d.calls| && d.calls[k].future == c.calls[k].future && (a.k != k ==> Spared(c, d, k))
  {}

  lemma SendSpares(c: Client, a: Action, k: nat)
    requires a.SendHead? && Applies(c, a) && k < |c.calls|
    ensures var d := Act(c, a);
            && k < |d.calls| && d.calls[k].future == c.calls[k].future
            && ((c.sendQueue[0].Request? && c.sendQueue[0].tag == k) || Spared(c, d, k))
  {
    var m := c.sendQueue[0];
    if a.sent || !m.Request? || m.tag >= |c.calls| {
      assert Act(c, a).calls == c.calls;
    } else {
      assert Act(c, a).calls == c.calls[m.tag := c.calls[m.tag].(phase := Over(Lost))];
    }
  }

  /** No client step changes a future that is set, or a reply count. Phases move when a request is queued or lost. */
  lemma ActSpares(c: Client, a: Action, k: nat)
    requires Applies(c, a) && k < |c.calls|
    ensures if (a.Enqueue? && a.k == k) || (a.SendHead? && c.sendQueue[0].Request? && c.sendQueue[0].tag == k) then
              k < |Act(c, a).calls| && Act(c, a).calls[k].future == c.calls[k].future
            else
              Spared(c, Act(c, a), k)
  {
    if a.Enqueue? {
      EnqueueSpares(c, a, k);
    } else if a.SendHead? {
      SendSpares(c, a, k);
    } else if a.TakeReply? || a.CompleteReply? || a.WorkerCleanup? || a.CloseTracker? {
      WorkerActSpares(c, a, k);
    } else if a.Enter? || a.Allocate? || a.StopWorker? || a.CloseFlags? {
      FlagActSpares(c, a, k);
    } else if a.CancelPop? {
      CancelPopSpares(c, a, k);
    } else {
      ThreadActSpares(c, a, k);
    }
  }

  predicate SameFutures(c: Client, d: Client) {
    |d.calls| == |c.calls| && forall k | 0 <= k < |c.calls| :: d.calls[k].future == c.calls[k].future
  }

  /** At most the phase of the call changes. */
  lemma AcceptRequestSpares(s: State, i: Identity, situation: Situation, now: Time)
    requires i in s.clients && s.clients[i].uplink != [] && s.clients[i].uplink[0].Request?
    ensures var c, s' := s.clients[i], AcceptMessage(s, i, situation, now);
            s'.clients.Keys == s.clients.Keys && s'.clients == s.clients[i := s'.clients[i]]
            && SameFutures(c, s'.clients[i])
  {
    PhaseKeepsFutures(s.clients[i].(uplink := s.clients[i].uplink[1..]), s.clients[i].uplink[0].tag,
                      Over(Completed(true)));
    PhaseKeepsFutures(s.clients[i].(uplink := s.clients[i].uplink[1..]), s.clients[i].uplink[0].tag,
                      Handled(s.nextTask));
  }

  lemma AcceptCancelSpares(s: State, i: Identity, situation: Situation, now: Time)
    requires i in s.clients && s.clients[i].uplink != [] && s.clients[i].uplink[0].CancelMessage?
    ensures AcceptMessage(s, i, situation, now).clients
            == s.clients[i := s.clients[i].(uplink := s.clients[i].uplink[1..])]
  {}

  lemma AcceptSpares(s: State, i: Identity, situation: Situation, now: Time, j: Identity)
    requires i in s.clients && s.clients[i].uplink != [] && j in s.clients
    ensures var s' := AcceptMessage(s, i, situation, now);
            j in s'.clients && SameFutures(s.clients[j], s'.clients[j])
  {
    if s.clients[i].uplink[0].Request? {
      AcceptRequestSpares(s, i, situation, now);
    } else {
      AcceptCancelSpares(s, i, situation, now);
    }
  }

  lemma EndSpares(s: State, t: nat, ending: Ending, now: Time, j: Identity)
    requires t in s.tasks && j in s.clients
    ensures var s' := EndTask(s, t, ending, now);
            j in s'.clients && SameFutures(s.clients[j], s'.clients[j])
  {}

  lemma EmitKeepsFutures(c: Client, task: Task, e: Emission)
    ensures SameFutures(c, Emit(c, task, e))
  {}

  lemma PhaseKeepsFutures(c: Client, k: nat, p: Phase)
    ensures SameFutures(c, WithPhase(c, k, p))
  {}

  lemma ProgressKeepsFutures(c: Client, task: Task, o: Outcome)
    ensures SameFutures(c, ProgressClient(c, task, o))
  {
    var e := Emit(c, task, Emitted(task.handler, o));
    EmitKeepsFutures(c, task, Emitted(task.handler, o));
    PhaseKeepsFutures(e, task.tag, Over(Completed(CutShort(task.handler, o))));
  }

  lemma ProgressOfStranger(s: State, t: nat, o: Outcome, now: Time)
    requires t in s.tasks && s.tasks[t].identity !in s.clients
    ensures ProgressTask(s, t, o, now).clients == s.clients
  {}

  lemma ProgressSpares(s: State, t: nat, o: Outcome, now: Time, j: Identity)
    requires t in s.tasks && j in s.clients
    ensures var s' := ProgressTask(s, t, o, now);
            j in s'.clients && SameFutures(s.clients[j], s'.clients[j])
  {
    var i := s.tasks[t].identity;
    if i in s.clients {
      ProgressShape(s, t, o, now);
      ProgressKeepsFutures(s.clients[i], s.tasks[t], o);
    } else {
      ProgressOfStranger(s, t, o, now);
    }
  }

  /** A server step touches phases and reply counts, never a future. */
  lemma ServerSpares(s: State, step: Step, i: Identity)
    requires !step.ClientStep? && Enabled(s, step) && i in s.clients
    ensures var s' := Apply(s, step);
            i in s'.clients && SameFutures(s.clients[i], s'.clients[i])
  {
    match step
    case Accept(j, situation, now) => AcceptSpares(s, j, situation, now, i);
    case Progress(t, outcome, now) => ProgressSpares(s, t, outcome, now, i);
    case Unwind(t, now) => EndSpares(s, t, Interrupted, now, i);
    case SendZero(_) =>
    case Snapshot(_) =>
  }

  lemma StepKeepsFutures(s: State, step: Step, i: Identity, k: nat)
    requires Enabled(s, step) && i in s.clients && k < |s.clients[i].calls|
    requires !s.clients[i].calls[k].future.Unset?
    ensures var s' := Apply(s, step);
            i in s'.clients && k < |s'.clients[i].calls|
            && s'.clients[i].calls[k].future == s.clients[i].calls[k].future
  {
    if step.ClientStep? {
      if step.i == i {
        ActSpares(s.clients[i], step.action, k);
      }
    } else {
      ServerSpares(s, step, i);
    }
  }

  /** The first completion of a future, whatever it was, is never changed again. */
  lemma {:induction false} CompletionIsFinal(s: State, steps: seq<Step>, i: Identity, k: nat)
    requires IsRun(s, steps) && i in s.clients && k < |s.clients[i].calls|
    requires !s.clients[i].calls[k].future.Unset?
    ensures var s' := Last(s, steps);
            i in s'.clients && k < |s'.clients[i].calls|
            && s'.clients[i].calls[k].future == s.clients[i].calls[k].future
    decreases steps
  {
    if steps != [] {
      StepKeepsFutures(s, steps[0], i, k);
      CompletionIsFinal(Apply(s, steps[0]), steps[1..], i, k);
    }
  }

  // ----- Close

  /** The thread that issued the call has returned from `send_request`. */
  predicate SendFinished(x: Call) {
    !Early(x)
  }

  /**
   Once `close` has emptied the tracker and every `send_request` in progress is over, the futures still unset are
   exactly these, whatever the interleaving: entries made after that by calls whose payload could not be encoded, and
   perhaps the one the worker is about to complete, having taken its entry.
   */
  lemma CloseLeavesNothingUnset(identities: map<Identity, Admission>, steps: seq<Step>, s: State, i: Identity)
    requires Reached(identities, steps, s) && i in s.clients && s.clients[i].trackerClosed
    requires forall k | 0 <= k < |s.clients[i].calls| :: SendFinished(s.clients[i].calls[k])
    ensures var c := s.clients[i];
            forall k | 0 <= k < |c.calls| && !(c.resolving.Some? && c.resolving.value.entry == k) ::
              c.calls[k].future.Unset? <==> c.calls[k].stage.Unencoded? && InTracker(c, k)
  {
    ReachedInv(identities, steps, s);
    var c := s.clients[i];
    assert ClientInv(c, i, s.tasks);
    forall k | 0 <= k < |c.calls| && !(c.resolving.Some? && c.resolving.value.entry == k)
      ensures c.calls[k].future.Unset? <==> c.calls[k].stage.Unencoded? && InTracker(c, k)
    {
      assert SendFinished(c.calls[k]);
    }
  }

  /** A client by itself: nothing has reached the server. */
  function Alone(i: Identity, c: Client): State {
    State(map[i := c], map[], 0, map[], map[])
  }

  lemma AloneUnfolds(i: Identity, c: Client, a: Action, rest: seq<Step>, end: State)
    requires CanAct(c, i, map[], a)
    requires IsRun(Alone(i, Act(c, a)), rest) && Last(Alone(i, Act(c, a)), rest) == end
    ensures IsRun(Alone(i, c), [ClientStep(i, a)] + rest) && Last(Alone(i, c), [ClientStep(i, a)] + rest) == end
  {
    var steps := [ClientStep(i, a)] + rest;
    assert steps[1..] == rest;
    assert Apply(Alone(i, c), steps[0]) == Alone(i, Act(c, a));
  }

  const LATE_CALL: seq<Action> := [Enter, CloseFlags, CloseTracker, Allocate(1, PING), FailToEncode(0)]

  /** The client after the first `n` actions of `LATE_CALL`. */
  function LateClient(n: nat): Client {
    var x := Call(1, 1, PING, if n < 5 then Allocated else Unencoded, Unset, Unsent, 0, 0);
    Client(Admitted, if n < 4 then 1 else 2, if n < 4 then map[] else map[1 := 0], if n < 4 then [] else [x],
           if 1 <= n < 4 then 1 else 0, n >= 2, n < 2, n >= 3, [], [], [], None)
  }

  lemma LateStep(i: Identity, n: nat)
    requires n < 5
    ensures CanAct(LateClient(n), i, map[], LATE_CALL[n]) && Act(LateClient(n), LATE_CALL[n]) == LateClient(n + 1)
  {
    var c := LateClient(n);
    if n == 2 {
      assert Emptied(c).calls == [];
    } else if n == 3 {
      assert c.pending[1 := 0].Keys == {1};
    }
  }

  function Steps(i: Identity, actions: seq<Action>): seq<Step> {
    if actions == [] then [] else [ClientStep(i, actions[0])] + Steps(i, actions[1..])
  }

  lemma {:induction false} LateRun(i: Identity, n: nat)
    requires n <= 5
    ensures IsRun(Alone(i, LateClient(n)), Steps(i, LATE_CALL[n..]))
    ensures Last(Alone(i, LateClient(n)), Steps(i, LATE_CALL[n..])) == Alone(i, LateClient(5))
    decreases 5 - n
  {
    if n < 5 {
      LateStep(i, n);
      LateRun(i, n + 1);
      assert LATE_CALL[n..][1..] == LATE_CALL[n + 1..];
      AloneUnfolds(i, LateClient(n), LATE_CALL[n], Steps(i, LATE_CALL[n + 1..]), Alone(i, LateClient(5)));
    }
  }

  /** A thread past its first flag test allocates after `close` is through, and then cannot encode its payload. */
  lemma UnencodablePayloadOutlivesClose(i: Identity)
    ensures var steps := Steps(i, LATE_CALL);
            && IsRun(Initial(map[i := Admitted]), steps)
            && var s := Last(Initial(map[i := Admitted]), steps);
            && i in s.clients && s.clients[i].trackerClosed && |s.clients[i].calls| == 1
            && SendFinished(s.clients[i].calls[0]) && s.clients[i].calls[0].future.Unset?
  {
    LateRun(i, 0);
    assert LATE_CALL[0..] == LATE_CALL;
    assert Initial(map[i := Admitted]) == Alone(i, LateClient(0));
  }

  // ----- Cancellation

  /** From `c` to `d`, call `k` has left the tracker, if it was there, and nothing else has changed. */
  predicate OwnEntryPopped(c: Client, d: Client, k: nat)
    requires k < |c.calls|
  {
    && d.calls == c.calls[k := c.calls[k].(stage := if InTracker(c, k) then CancelTaken else CancelDone)]
    && d == c.(calls := d.calls, pending := if InTracker(c, k) then c.pending - {c.calls[k].id} else c.pending)
  }

  lemma CancelPopEffect(c: Client, k: nat)
    requires Books(c) && OwnsEntry(c, k) && c.calls[k].stage == CancelBegun
    ensures OwnEntryPopped(c, Act(c, CancelPop(k)), k)
  {
    CancelPopIsLocal(c, CancelPop(k));
  }

  lemma CancelBegunOwnsEntry(s: State, i: Identity, k: nat)
    requires Inv(s) && i in s.clients && k < |s.clients[i].calls| && s.clients[i].calls[k].stage == CancelBegun
    ensures Books(s.clients[i]) && OwnsEntry(s.clients[i], k)
  {
    assert ClientInv(s.clients[i], i, s.tasks);
    PresentOwnsEntry(s.clients[i], i, s.tasks, k);
  }

  lemma CancelPopInState(s: State, i: Identity, k: nat)
    requires Inv(s) && i in s.clients && k < |s.clients[i].calls| && s.clients[i].calls[k].stage == CancelBegun
    ensures OwnEntryPopped(s.clients[i], Act(s.clients[i], CancelPop(k)), k)
  {
    CancelBegunOwnsEntry(s, i, k);
    CancelPopEffect(s.clients[i], k);
  }

  /** The cancel callback removes its own call's entry or none; it never disturbs another call. */
  lemma CancelPopsOwnEntry(identities: map<Identity, Admission>, steps: seq<Step>, s: State, i: Identity, k: nat)
    requires Reached(identities, steps, s) && i in s.clients && k < |s.clients[i].calls|
    requires s.clients[i].calls[k].stage == CancelBegun
    ensures OwnEntryPopped(s.clients[i], Act(s.clients[i], CancelPop(k)), k)
  {
    ReachedInv(identities, steps, s);
    CancelPopInState(s, i, k);
  }

  /** No cancel message for call `k` stands in front of its request. */
  predicate CancelsBehindRequest(q: seq<Message>, k: nat) {
    forall a, b | 0 <= a < |q| && 0 <= b < |q| && q[a].CancelMessage? && q[b].Request? && q[a].tag == q[b].tag == k ::
      b < a
  }

  lemma OutboundIsOrdered(calls: seq<Call>, q: seq<Message>, k: nat)
    requires OutboundOk(calls, q)
    ensures CancelsBehindRequest(q, k)
  {}

  /** At most one cancel message per call, for a cancelled call only, and behind the call's own request. */
  lemma CancelFollowsRequest(identities: map<Identity, Admission>, steps: seq<Step>, s: State, i: Identity, k: nat)
    requires Reached(identities, steps, s) && i in s.clients && k < |s.clients[i].calls|
    ensures var c := s.clients[i];
            && c.calls[k].cancels <= 1
            && (c.calls[k].cancels == 1 ==> c.calls[k].future == Cancelled && !c.calls[k].phase.Unsent?)
            && CancelsBehindRequest(Outbound(c), k)
  {
    ReachedInv(identities, steps, s);
    var c := s.clients[i];
    assert ClientInv(c, i, s.tasks);
    assert CallOk(c.calls[k]);
    OutboundIsOrdered(c.calls, Outbound(c), k);
  }

  /**
   The server marks exactly the registered handler of the call the cancel message was sent for: no other client's,
   and no later request that happens to reuse the id.
   */
  lemma CancelReachesOwnHandler(identities: map<Identity, Admission>, steps: seq<Step>, s: State, i: Identity,
                                situation: Situation, now: Time)
    requires Reached(identities, steps, s) && Enabled(s, Accept(i, situation, now))
    requires s.clients[i].uplink[0].CancelMessage?
    ensures var s' := AcceptMessage(s, i, situation, now);
            && s'.tasks.Keys == s.tasks.Keys
            && forall t | t in s.tasks ::
                 s'.tasks[t] == if s.clients[i].admission.Admitted?
                                   && IsHandlerOf(s.tasks[t], i, s.clients[i].uplink[0].tag)
                                then s.tasks[t].(cancelRequested := true) else s.tasks[t]
  {
    ReachedInv(identities, steps, s);
    CancelMarksOwn(s, i, situation, now);
  }

  lemma CancelMarksOwn(s: State, i: Identity, situation: Situation, now: Time)
    requires Inv(s) && i in s.clients && s.clients[i].uplink != [] && s.clients[i].uplink[0].CancelMessage?
    ensures var s' := AcceptMessage(s, i, situation, now);
            && s'.tasks.Keys == s.tasks.Keys
            && forall t | t in s.tasks ::
                 s'.tasks[t] == if s.clients[i].admission.Admitted?
                                   && IsHandlerOf(s.tasks[t], i, s.clients[i].uplink[0].tag)
                                then s.tasks[t].(cancelRequested := true) else s.tasks[t]
  {
    var m := s.clients[i].uplink[0];
    CancelTarget(s, i);
    OwnHandler(s, i, m.tag);
    forall t | t in s.tasks && IsHandlerOf(s.tasks[t], i, m.tag)
      ensures (i, m.target as int) in s.inflight && s.inflight[(i, m.target as int)] == t
    {
      HandlerIsListed(s, i, m.tag, t);
    }
    CancelMarks(s, i, situation, now);
  }

  lemma CancelTarget(s: State, i: Identity)
    requires Inv(s) && i in s.clients && s.clients[i].uplink != [] && s.clients[i].uplink[0].CancelMessage?
    ensures var c, m := s.clients[i], s.clients[i].uplink[0];
            m.tag < |c.calls| && c.calls[m.tag].id == m.target && Present(c, i, s.tasks, m.tag)
  {}

  lemma CancelMarks(s: State, i: Identity, situation: Situation, now: Time)
    requires i in s.clients && s.clients[i].uplink != [] && s.clients[i].uplink[0].CancelMessage?
    ensures var s', key := AcceptMessage(s, i, situation, now), (i, s.clients[i].uplink[0].target as int);
            && s'.tasks.Keys == s.tasks.Keys
            && forall t | t in s.tasks ::
                 s'.tasks[t] == if s.clients[i].admission.Admitted? && key in s.inflight && s.inflight[key] == t
                                then s.tasks[t].(cancelRequested := true) else s.tasks[t]
  {}

  predicate IsHandlerOf(task: Task, i: Identity, k: nat) {
    task.registered && task.identity == i && task.tag == k
  }

  lemma HandlerIsListed(s: State, i: Identity, k: nat, t: nat)
    requires Inv(s) && i in s.clients && k < |s.clients[i].calls|
    requires t in s.tasks && IsHandlerOf(s.tasks[t], i, k)
    ensures var key := (i, s.clients[i].calls[k].id as int);
            key in s.inflight && s.inflight[key] == t
  {}

  /** Handler `t` of call `k` has been told to stop, or is gone. */
  predicate Stopped(s: State, i: Identity, k: nat, t: nat) {
    && i in s.clients && k < |s.clients[i].calls| && t < s.nextTask
    && if t in s.tasks then
         s.tasks[t].identity == i && s.tasks[t].tag == k && s.tasks[t].cancelRequested
       else
         s.clients[i].calls[k].phase.Over?
  }

  lemma OnlyHandlerOfCall(s: State, i: Identity, k: nat, t: nat, u: nat)
    requires Inv(s) && Stopped(s, i, k, t) && u in s.tasks
    ensures s.tasks[u].identity == i && s.tasks[u].tag == k ==> u == t
  {}

  lemma QueuedIsNotStopped(s: State, i: Identity, k: nat, t: nat)
    requires Inv(s) && Stopped(s, i, k, t)
    ensures !s.clients[i].calls[k].phase.Queued? && !s.clients[i].calls[k].phase.Unsent?
    ensures forall m | m in Outbound(s.clients[i]) && m.Request? :: m.tag != k
  {
    var c := s.clients[i];
    assert ClientInv(c, i, s.tasks);
    if t in s.tasks {
      assert TaskOk(c.calls[k], t, s.tasks[t]);
    }
    forall m | m in Outbound(c) && m.Request? ensures m.tag != k {
      assert MessageOk(c.calls[m.tag], m);
    }
  }

  /** Nothing about call `k` and handler `t` changes that `Stopped` depends on. */
  lemma StaysStopped(s: State, s': State, i: Identity, k: nat, t: nat)
    requires Stopped(s, i, k, t) && s'.nextTask >= s.nextTask
    requires i in s'.clients && k < |s'.clients[i].calls|
    requires s'.clients[i].calls[k].phase == s.clients[i].calls[k].phase || s'.clients[i].calls[k].phase.Over?
    requires t in s.tasks && t in s'.tasks ==>
               s'.tasks[t].identity == s.tasks[t].identity && s'.tasks[t].tag == s.tasks[t].tag
               && s'.tasks[t].cancelRequested
    requires t !in s.tasks ==> t !in s'.tasks
    requires t in s.tasks && t !in s'.tasks ==> s'.clients[i].calls[k].phase.Over?
    ensures Stopped(s', i, k, t)
  {}

  lemma StoppedCallIsNotQueued(s: State, i: Identity, a: Action, k: nat, t: nat)
    requires Inv(s) && Enabled(s, ClientStep(i, a)) && Stopped(s, i, k, t)
    ensures a.Enqueue? ==> a.k != k
    ensures a.SendHead? && s.clients[i].sendQueue[0].Request? ==> s.clients[i].sendQueue[0].tag != k
  {
    QueuedIsNotStopped(s, i, k, t);
    assert ClientInv(s.clients[i], i, s.tasks);
    if a.Enqueue? {
      assert CallOk(s.clients[i].calls[a.k]);
    } else if a.SendHead? {
      assert s.clients[i].sendQueue[0] in Outbound(s.clients[i]);
    }
  }

  lemma ActElsewhere(s: State, j: Identity, a: Action, i: Identity, k: nat, t: nat)
    requires Enabled(s, ClientStep(j, a)) && Stopped(s, i, k, t)
    requires j == i && a.Enqueue? ==> a.k != k
    requires j == i && a.SendHead? && s.clients[i].sendQueue[0].Request? ==> s.clients[i].sendQueue[0].tag != k
    ensures var s' := Apply(s, ClientStep(j, a));
            Stopped(s', i, k, t) && s'.clients[i].calls[k].replies == s.clients[i].calls[k].replies
  {
    if j == i {
      ActSpares(s.clients[i], a, k);
    }
    StaysStopped(s, Apply(s, ClientStep(j, a)), i, k, t);
  }

  lemma ClientStepStaysStopped(s: State, j: Identity, a: Action, i: Identity, k: nat, t: nat)
    requires Inv(s) && Enabled(s, ClientStep(j, a)) && Stopped(s, i, k, t)
    ensures var s' := Apply(s, ClientStep(j, a));
            Stopped(s', i, k, t) && s'.clients[i].calls[k].replies == s.clients[i].calls[k].replies
  {
    if j == i {
      StoppedCallIsNotQueued(s, i, a, k, t);
    }
    ActElsewhere(s, j, a, i, k, t);
  }

  lemma ProgressSparesOthers(c: Client, task: Task, o: Outcome, k: nat)
    requires k < |c.calls| && k != task.tag
    ensures var d := ProgressClient(c, task, o);
            k < |d.calls| && d.calls[k] == c.calls[k]
  {
    EmitSparesOthers(c, task, Emitted(task.handler, o), k);
  }

  lemma EmitSparesOthers(c: Client, task: Task, e: Emission, k: nat)
    requires k < |c.calls| && k != task.tag
    ensures k < |Emit(c, task, e).calls| && Emit(c, task, e).calls[k] == c.calls[k]
  {}

  lemma ProgressElsewhere(s: State, u: nat, o: Outcome, now: Time, i: Identity, k: nat, t: nat)
    requires Stopped(s, i, k, t) && u in s.tasks && u != t && s.tasks[u].identity in s.clients
    requires s.tasks[u].identity != i || s.tasks[u].tag != k
    ensures var s' := ProgressTask(s, u, o, now);
            Stopped(s', i, k, t) && s'.clients[i].calls[k].replies == s.clients[i].calls[k].replies
  {
    ProgressShape(s, u, o, now);
    if s.tasks[u].identity == i {
      ProgressSparesOthers(s.clients[i], s.tasks[u], o, k);
    }
    StaysStopped(s, ProgressTask(s, u, o, now), i, k, t);
  }

  lemma ProgressStaysStopped(s: State, step: Step, i: Identity, k: nat, t: nat)
    requires step.Progress? && Inv(s) && Enabled(s, step) && Stopped(s, i, k, t)
    ensures var s' := Apply(s, step);
            Stopped(s', i, k, t) && s'.clients[i].calls[k].replies == s.clients[i].calls[k].replies
  {
    TaskOfClient(s, step.t);
    OnlyHandlerOfCall(s, i, k, t, step.t);
    ProgressElsewhere(s, step.t, step.outcome, step.now, i, k, t);
  }

  lemma UnwindStaysStopped(s: State, u: nat, now: Time, i: Identity, k: nat, t: nat)
    requires u in s.tasks && Stopped(s, i, k, t)
    requires u == t ==> s.tasks[u].identity == i && s.tasks[u].tag == k
    ensures var s' := EndTask(s, u, Interrupted, now);
            Stopped(s', i, k, t) && s'.clients[i].calls[k].replies == s.clients[i].calls[k].replies
  {}

  lemma RequestElsewhere(s: State, j: Identity, situation: Situation, now: Time, i: Identity, k: nat, t: nat)
    requires j in s.clients && s.clients[j].uplink != [] && s.clients[j].uplink[0].Request?
    requires s.clients[j].uplink[0].tag < |s.clients[j].calls|
    requires Stopped(s, i, k, t) && (j == i ==> s.clients[j].uplink[0].tag != k)
    ensures var s' := AcceptMessage(s, j, situation, now);
            Stopped(s', i, k, t) && s'.clients[i].calls[k].replies == s.clients[i].calls[k].replies
  {}

  lemma CancelElsewhere(s: State, j: Identity, situation: Situation, now: Time, i: Identity, k: nat, t: nat)
    requires j in s.clients && s.clients[j].uplink != [] && s.clients[j].uplink[0].CancelMessage?
    requires InflightOk(s) && Stopped(s, i, k, t)
    ensures var s' := AcceptMessage(s, j, situation, now);
            Stopped(s', i, k, t) && s'.clients[i].calls[k].replies == s.clients[i].calls[k].replies
  {
    CancelShape(s, j, situation, now);
    CancelSeenElsewhere(s, AcceptMessage(s, j, situation, now), j, now, i, k, t);
  }

  lemma CancelSeenElsewhere(s: State, s': State, j: Identity, now: Time, i: Identity, k: nat, t: nat)
    requires j in s.clients && s.clients[j].uplink != [] && s.clients[j].uplink[0].CancelMessage?
    requires CancelSeen(s, s', j, now) && Stopped(s, i, k, t)
    ensures Stopped(s', i, k, t) && s'.clients[i].calls[k].replies == s.clients[i].calls[k].replies
  {
    StaysStopped(s, s', i, k, t);
  }

  lemma AcceptStaysStopped(s: State, step: Step, i: Identity, k: nat, t: nat)
    requires step.Accept? && Inv(s) && Enabled(s, step) && Stopped(s, i, k, t)
    ensures var s' := Apply(s, step);
            Stopped(s', i, k, t) && s'.clients[i].calls[k].replies == s.clients[i].calls[k].replies
  {
    var m := s.clients[step.i].uplink[0];
    if m.Request? {
      HeadRequest(s, step.i);
      assert m in Outbound(s.clients[step.i]);
      QueuedIsNotStopped(s, i, k, t);
      RequestElsewhere(s, step.i, step.situation, step.now, i, k, t);
    } else {
      CancelElsewhere(s, step.i, step.situation, step.now, i, k, t);
    }
  }

  lemma StepStaysStopped(s: State, step: Step, i: Identity, k: nat, t: nat)
    requires Inv(s) && Enabled(s, step) && Stopped(s, i, k, t)
    ensures var s' := Apply(s, step);
            Stopped(s', i, k, t) && s'.clients[i].calls[k].replies == s.clients[i].calls[k].replies
  {
    match step
    case ClientStep(j, a) => ClientStepStaysStopped(s, j, a, i, k, t);
    case Accept(_, _, _) => AcceptStaysStopped(s, step, i, k, t);
    case Progress(_, _, _) => ProgressStaysStopped(s, step, i, k, t);
    case Unwind(u, now) => UnwindStaysStopped(s, u, now, i, k, t);
    case SendZero(_) => OtherStaysStopped(s, step, i, k, t);
    case Snapshot(_) => OtherStaysStopped(s, step, i, k, t);
  }

  lemma OtherStaysStopped(s: State, step: Step, i: Identity, k: nat, t: nat)
    requires (step.SendZero? || step.Snapshot?) && Enabled(s, step) && Stopped(s, i, k, t)
    ensures var s' := Apply(s, step);
            Stopped(s', i, k, t) && s'.clients[i].calls[k].replies == s.clients[i].calls[k].replies
  {}

  /** A handler that has been told to stop sends no further reply, for the rest of the run. */
  lemma {:induction false} StoppedHandlerIsSilent(s: State, steps: seq<Step>, i: Identity, k: nat, t: nat)
    requires Inv(s) && IsRun(s, steps) && Stopped(s, i, k, t)
    ensures var s' := Last(s, steps);
            Stopped(s', i, k, t) && s'.clients[i].calls[k].replies == s.clients[i].calls[k].replies
    decreases steps
  {
    if steps != [] {
      StepStaysStopped(s, steps[0], i, k, t);
      StepKeeps(s, steps[0]);
      StoppedHandlerIsSilent(Apply(s, steps[0]), steps[1..], i, k, t);
    }
  }

  /** The same from the start of a run: whatever happens after the cancellation was requested. */
  lemma CancelledHandlerIsSilent(identities: map<Identity, Admission>, before: seq<Step>, s: State, t: nat,
                                 after: seq<Step>)
    requires Reached(identities, before, s) && IsRun(s, after)
    requires t in s.tasks && s.tasks[t].cancelRequested
    ensures var i, k := s.tasks[t].identity, s.tasks[t].tag;
            && i in s.clients && k < |s.clients[i].calls|
            && var s' := Last(s, after);
            && i in s'.clients && k < |s'.clients[i].calls|
            && s'.clients[i].calls[k].replies == s.clients[i].calls[k].replies <= 1
  {
    ReachedInv(identities, before, s);
    TaskOfClient(s, t);
    StoppedHandlerIsSilent(s, after, s.tasks[t].identity, s.tasks[t].tag, t);
  }

  // ----- Replies

  /**
   At most one reply per call, and for a handler that ran to its end exactly one unless it gave up (see
   `Handlers.GivingUpHasACause`). Every reply on its way carries the id of its call.
   */
  lemma ReplyAccounting(identities: map<Identity, Admission>, steps: seq<Step>, s: State, i: Identity, k: nat)
    requires Reached(identities, steps, s) && i in s.clients && k < |s.clients[i].calls|
    ensures var x := s.clients[i].calls[k];
            && x.replies <= 1
            && (x.phase.Over? && x.phase.ending.Completed? ==> (x.replies == 1 <==> !x.phase.ending.gaveUp))
            && (x.phase.Unsent? || x.phase.Queued? ==> x.replies == 0)
    ensures forall d | d in s.clients[i].downlink && d.Reply? && d.tag == k ::
              d.id == s.clients[i].calls[k].id && s.clients[i].calls[k].replies == 1
  {
    ReachedInv(identities, steps, s);
    assert ClientInv(s.clients[i], i, s.tasks);
    assert CallOk(s.clients[i].calls[k]);
  }

  // ----- Which steps cost a call its reply

  /** In state `s`, `step` ends the handler of call `k` without a reply: before its first await, or at one. */
  predicate CutsOff(s: State, step: Step, i: Identity, k: nat) {
    match step
    case Accept(j, situation, _) =>
      && j == i && i in s.clients && s.clients[i].uplink != []
      && s.clients[i].uplink[0].Request? && s.clients[i].uplink[0].tag == k < |s.clients[i].calls|
      && LostAtOnce(s.clients[i].admission, s.clients[i].calls[k].command, situation)
    case Progress(t, outcome, _) =>
      t in s.tasks && s.tasks[t].identity == i && s.tasks[t].tag == k && CutShort(s.tasks[t].handler, outcome)
    case _ => false
  }

  ghost predicate CutOffInRun(s: State, steps: seq<Step>, i: Identity, k: nat)
    requires IsRun(s, steps)
    decreases steps
  {
    steps != [] && (CutsOff(s, steps[0], i, k) || CutOffInRun(Apply(s, steps[0]), steps[1..], i, k))
  }

  /** The call is over without a reply, and nobody cancelled it on the server. */
  predicate Unanswered(c: Client, k: nat) {
    k < |c.calls| && c.calls[k].phase == Over(Completed(true))
  }

  predicate UnansweredCall(s: State, i: Identity, k: nat) {
    i in s.clients && Unanswered(s.clients[i], k)
  }

  lemma ActCutsOffNobody(c: Client, a: Action, k: nat)
    requires Applies(c, a) && (a.Enqueue? ==> c.calls[a.k].phase.Unsent?)
    requires a.SendHead? && c.sendQueue[0].Request? && c.sendQueue[0].tag < |c.calls| ==>
               c.calls[c.sendQueue[0].tag].phase.Queued?
    ensures Unanswered(Act(c, a), k) <==> Unanswered(c, k)
  {
    if k < |c.calls| {
      ActSpares(c, a, k);
      QueuePhases(c, a);
    } else {
      NewCallPhases(c, a, k);
    }
  }

  lemma QueuePhases(c: Client, a: Action)
    requires Applies(c, a)
    ensures a.Enqueue? ==> (Unanswered(Act(c, a), a.k) ==> Unanswered(c, a.k))
    ensures a.SendHead? && c.sendQueue[0].Request? ==>
              (Unanswered(Act(c, a), c.sendQueue[0].tag) ==> Unanswered(c, c.sendQueue[0].tag))
  {}

  lemma NewCallPhases(c: Client, a: Action, k: nat)
    requires Applies(c, a) && k >= |c.calls|
    ensures !Unanswered(Act(c, a), k)
  {
    if a.Allocate? {
      AllocatedIsUnsent(c, a, k);
    } else {
      NoNewCalls(c, a);
    }
  }

  lemma AllocatedIsUnsent(c: Client, a: Action, k: nat)
    requires a.Allocate? && Applies(c, a) && k >= |c.calls|
    ensures !Unanswered(Act(c, a), k)
  {}

  lemma NoNewCalls(c: Client, a: Action)
    requires !a.Allocate? && Applies(c, a)
    ensures |Act(c, a).calls| == |c.calls|
  {
    if a.CancelPop? {
      CancelPopMakesNoCalls(c, a);
    } else if a.SendHead? {
      SendHeadMakesNoCalls(c, a);
    } else if a.TestFlags? || a.FailToEncode? || a.Enqueue? || a.Strand? || a.PopFailed? || a.FailFuture?
              || a.UserCancel? || a.QueueCancel? {
      ThreadMakesNoCalls(c, a);
    }
  }

  lemma ThreadMakesNoCalls(c: Client, a: Action)
    requires a.TestFlags? || a.FailToEncode? || a.Enqueue? || a.Strand? || a.PopFailed? || a.FailFuture?
             || a.UserCancel? || a.QueueCancel?
    requires Applies(c, a)
    ensures |Act(c, a).calls| == |c.calls|
  {}

  lemma CancelPopMakesNoCalls(c: Client, a: Action)
    requires a.CancelPop? && Applies(c, a)
    ensures |Act(c, a).calls| == |c.calls|
  {}

  lemma SendHeadMakesNoCalls(c: Client, a: Action)
    requires a.SendHead? && Applies(c, a)
    ensures |Act(c, a).calls| == |c.calls|
  {}

  lemma QueuedAndUnsent(s: State, j: Identity, a: Action)
    requires Inv(s) && Enabled(s, ClientStep(j, a))
    ensures var c := s.clients[j];
            && (a.Enqueue? ==> c.calls[a.k].phase.Unsent?)
            && (a.SendHead? && c.sendQueue[0].Request? && c.sendQueue[0].tag < |c.calls| ==>
                  c.calls[c.sendQueue[0].tag].phase.Queued?)
  {
    var c := s.clients[j];
    assert ClientInv(c, j, s.tasks);
    if a.Enqueue? {
      assert CallOk(c.calls[a.k]);
    } else if a.SendHead? {
      assert c.sendQueue[0] in Outbound(c);
    }
  }

  lemma ClientStepCutsOffNobody(s: State, j: Identity, a: Action, i: Identity, k: nat)
    requires j in s.clients && Enabled(s, ClientStep(j, a))
    requires a.Enqueue? ==> s.clients[j].calls[a.k].phase.Unsent?
    requires a.SendHead? && s.clients[j].sendQueue[0].Request?
             && s.clients[j].sendQueue[0].tag < |s.clients[j].calls| ==>
               s.clients[j].calls[s.clients[j].sendQueue[0].tag].phase.Queued?
    ensures UnansweredCall(Apply(s, ClientStep(j, a)), i, k) <==> UnansweredCall(s, i, k)
  {
    ActCutsOffNobody(s.clients[j], a, k);
  }

  lemma PhaseCutsOff(c: Client, j: nat, p: Phase, k: nat)
    requires j < |c.calls| && !Unanswered(c, j)
    ensures Unanswered(WithPhase(c, j, p), k) <==> Unanswered(c, k) || (k == j && p == Over(Completed(true)))
  {}

  /** Client `j` becomes `d`, in which call `m` is unanswered from now on if `cut`. */
  lemma OneClientCutOff(s: State, s': State, j: Identity, d: Client, m: nat, cut: bool, i: Identity, k: nat)
    requires j in s.clients && s'.clients == s.clients[j := d]
    requires Unanswered(d, k) <==> Unanswered(s.clients[j], k) || (k == m && cut)
    ensures UnansweredCall(s', i, k) <==> UnansweredCall(s, i, k) || (i == j && k == m && cut)
  {}

  lemma AcceptRequestCutsOff(s: State, step: Step, i: Identity, k: nat)
    requires step.Accept? && Enabled(s, step) && s.clients[step.i].uplink[0].Request?
    requires var c, m := s.clients[step.i], s.clients[step.i].uplink[0].tag;
             m < |c.calls| && !Unanswered(c, m) && c.calls[m].command != CANCEL_REQUEST
    requires (step.i, s.clients[step.i].uplink[0].id as int) !in s.inflight
    ensures UnansweredCall(Apply(s, step), i, k) <==> UnansweredCall(s, i, k) || CutsOff(s, step, i, k)
  {
    var j, situation, now := step.i, step.situation, step.now;
    var c, m := s.clients[j], s.clients[j].uplink[0].tag;
    var rest := c.(uplink := c.uplink[1..]);
    var lost := FirstHandler(c, m, situation).Ended?;
    EndedAtOnce(c.admission, c.calls[m].command, situation);
    var p := if lost then Over(Completed(true)) else Handled(s.nextTask);
    if lost {
      LostShape(s, j, situation, now);
    } else {
      AcceptShape(s, j, situation, now);
    }
    PhaseCutsOff(rest, m, p, k);
    OneClientCutOff(s, Apply(s, step), j, WithPhase(rest, m, p), m, lost, i, k);
  }

  lemma AcceptCutsOff(s: State, step: Step, i: Identity, k: nat)
    requires step.Accept? && Inv(s) && Enabled(s, step)
    ensures UnansweredCall(Apply(s, step), i, k) <==> UnansweredCall(s, i, k) || CutsOff(s, step, i, k)
  {
    if s.clients[step.i].uplink[0].Request? {
      HeadRequest(s, step.i);
      AcceptRequestCutsOff(s, step, i, k);
    } else {
      AcceptCancelSpares(s, step.i, step.situation, step.now);
    }
  }

  lemma CutShortEnds(h: Handler, o: Outcome)
    ensures CutShort(h, o) ==> Resume(h, o).Ended?
  {}

  lemma EmitKeepsPhases(c: Client, task: Task, e: Emission, k: nat)
    ensures Unanswered(Emit(c, task, e), k) <==> Unanswered(c, k)
    ensures |Emit(c, task, e).calls| == |c.calls|
  {}

  lemma ProgressClientCutsOff(c: Client, task: Task, o: Outcome, k: nat)
    requires task.tag < |c.calls| && !Unanswered(c, task.tag)
    ensures Unanswered(ProgressClient(c, task, o), k)
            <==> Unanswered(c, k) || (k == task.tag && CutShort(task.handler, o))
  {
    EmitKeepsPhases(c, task, Emitted(task.handler, o), k);
    EmitKeepsPhases(c, task, Emitted(task.handler, o), task.tag);
    PhaseCutsOff(Emit(c, task, Emitted(task.handler, o)), task.tag, Over(Completed(CutShort(task.handler, o))), k);
    CutShortEnds(task.handler, o);
  }

  /** A handler that runs belongs to a call that is not over. */
  lemma HandledIsNotUnanswered(s: State, t: nat)
    requires Inv(s) && t in s.tasks
    ensures var task := s.tasks[t];
            && task.identity in s.clients && task.tag < |s.clients[task.identity].calls|
            && !Unanswered(s.clients[task.identity], task.tag)
  {
    TaskOfClient(s, t);
  }

  lemma ProgressCutsOff(s: State, step: Step, i: Identity, k: nat)
    requires step.Progress? && Inv(s) && Enabled(s, step)
    ensures UnansweredCall(Apply(s, step), i, k) <==> UnansweredCall(s, i, k) || CutsOff(s, step, i, k)
  {
    HandledIsNotUnanswered(s, step.t);
    var task := s.tasks[step.t];
    var c := s.clients[task.identity];
    ProgressClientCutsOff(c, task, step.outcome, k);
    ProgressShape(s, step.t, step.outcome, step.now);
    OneClientCutOff(s, Apply(s, step), task.identity, ProgressClient(c, task, step.outcome), task.tag,
                    CutShort(task.handler, step.outcome), i, k);
  }

  lemma UnwindCutsOffNobody(s: State, t: nat, now: Time, i: Identity, k: nat)
    requires t in s.tasks && s.tasks[t].identity in s.clients
    requires var c, m := s.clients[s.tasks[t].identity], s.tasks[t].tag; m < |c.calls| && !Unanswered(c, m)
    ensures UnansweredCall(EndTask(s, t, Interrupted, now), i, k) <==> UnansweredCall(s, i, k)
  {
    var j, m := s.tasks[t].identity, s.tasks[t].tag;
    PhaseCutsOff(s.clients[j], m, Over(Interrupted), k);
    OneClientCutOff(s, EndTask(s, t, Interrupted, now), j, WithPhase(s.clients[j], m, Over(Interrupted)), m, false,
                    i, k);
  }

  lemma OtherStepCutsOffNobody(s: State, step: Step, i: Identity, k: nat)
    requires (step.SendZero? || step.Snapshot?) && Enabled(s, step)
    ensures UnansweredCall(Apply(s, step), i, k) <==> UnansweredCall(s, i, k)
  {}

  lemma StepCutsOff(s: State, step: Step, i: Identity, k: nat)
    requires Inv(s) && Enabled(s, step)
    ensures UnansweredCall(Apply(s, step), i, k) <==> UnansweredCall(s, i, k) || CutsOff(s, step, i, k)
  {
    match step
    case ClientStep(j, a) =>
      QueuedAndUnsent(s, j, a);
      ClientStepCutsOffNobody(s, j, a, i, k);
    case Accept(_, _, _) => AcceptCutsOff(s, step, i, k);
    case Progress(_, _, _) => ProgressCutsOff(s, step, i, k);
    case Unwind(t, now) =>
      HandledIsNotUnanswered(s, t);
      UnwindCutsOffNobody(s, t, now, i, k);
    case SendZero(_) => OtherStepCutsOffNobody(s, step, i, k);
    case Snapshot(_) => OtherStepCutsOffNobody(s, step, i, k);
  }

  lemma {:induction false} RunCutsOff(s: State, steps: seq<Step>, i: Identity, k: nat)
    requires Inv(s) && IsRun(s, steps)
    ensures UnansweredCall(Last(s, steps), i, k) <==> UnansweredCall(s, i, k) || CutOffInRun(s, steps, i, k)
    decreases steps
  {
    if steps != [] {
      StepCutsOff(s, steps[0], i, k);
      StepKeeps(s, steps[0]);
      RunCutsOff(Apply(s, steps[0]), steps[1..], i, k);
    }
  }

  /**
   In terms of the run alone: a call whose handler has ended, and was not cancelled, has its one reply exactly when no
   step of the run lost the request at once or cut its handler short.
   */
  lemma RepliesFollowTheRun(identities: map<Identity, Admission>, steps: seq<Step>, s: State, i: Identity, k: nat)
    requires Reached(identities, steps, s) && i in s.clients && k < |s.clients[i].calls|
    requires s.clients[i].calls[k].phase.Over? && s.clients[i].calls[k].phase.ending.Completed?
    ensures s.clients[i].calls[k].replies == if CutOffInRun(Initial(identities), steps, i, k) then 0 else 1
  {
    InitialInv(identities);
    RunCutsOff(Initial(identities), steps, i, k);
    ReplyAccounting(identities, steps, s, i, k);
  }

  // ----- Server bookkeeping

  /** Each session counts exactly its client's running handlers; a running handler is never evicted with its session. */
  lemma SessionsCountHandlers(identities: map<Identity, Admission>, steps: seq<Step>, s: State, i: Identity, now: Time)
    requires Reached(identities, steps, s)
    ensures Metrics.Active(s.sessions, i) == |Running(s.tasks, i)|
    ensures Running(s.tasks, i) != {} ==> i in s.sessions && i in Metrics.Evicted(s.sessions, now)
  {
    ReachedInv(identities, steps, s);
    assert Metrics.Active(s.sessions, i) == |Running(s.tasks, i)|;
  }

  /** When a handler ends, its session is there and counts it: the floor at zero in `on_request_end` never matters. */
  lemma FloorNeverReached(identities: map<Identity, Admission>, steps: seq<Step>, s: State, t: nat)
    requires Reached(identities, steps, s) && t in s.tasks && s.tasks[t].registered
    ensures s.tasks[t].identity in s.sessions && s.sessions[s.tasks[t].identity].active > 0
  {
    ReachedInv(identities, steps, s);
    var i := s.tasks[t].identity;
    assert t in Running(s.tasks, i);
    assert Metrics.Active(s.sessions, i) == |Running(s.tasks, i)|;
  }

  /** `_inflight_tasks` lists every registered handler under its own key, and nothing else. */
  lemma InflightIsBijective(identities: map<Identity, Admission>, steps: seq<Step>, s: State, key: (Identity, int),
                            t: nat)
    requires Reached(identities, steps, s)
    ensures key in s.inflight && s.inflight[key] == t <==>
            t in s.tasks && s.tasks[t].registered && (s.tasks[t].identity, s.tasks[t].id as int) == key
  {
    ReachedInv(identities, steps, s);
    if t in s.tasks && s.tasks[t].registered {
      assert Key(s.tasks[t]) in s.inflight;
    }
  }

  // ----- The bound on reuse

  /** The bound is no restriction for a client that makes fewer than MAX_ID calls. */
  lemma FewCallsMeetTheBound(identities: map<Identity, Admission>, steps: seq<Step>, s: State, i: Identity)
    requires Reached(identities, steps, s) && i in s.clients && |s.clients[i].calls| < MAX_ID
    ensures ReuseBound(s.clients[i], i, s.tasks)
  {
    ReachedInv(identities, steps, s);
    var c := s.clients[i];
    assert ClientInv(c, i, s.tasks);
    forall k | 0 <= k < |c.calls| ensures |c.calls| - k <= MAX_ID - c.calls[k].pendingAfter {
      assert CallOk(c.calls[k]);
    }
  }
}
