/**
 The multiplexed request protocol as a transition system: any number of client transports, one server, and a FIFO
 channel per direction and client.

 Each step is a stretch of code that nothing can interrupt: a section under the tracker's lock, one flag test, one
 attempt to complete a future, or a coroutine running from one await to the next. Threads and handlers interleave
 freely at step boundaries.

 A request is named by its position in the client's list of calls (its tag). Tags, `phase`, `replies`, `cancels` and
 `pendingAfter` are history: no step tests them, except for the bound on id reuse in `Allocate`.
 */
module Protocol {
  import opened IdRing
  import opened Wire
  import opened Handlers
  import Metrics

  type Identity = Metrics.Identity
  type Time = Metrics.Time

  // ----- The client side

  /** Where the thread that issued a request stands. */
  datatype Stage =
    | Allocated    // has an id; `_send_message` has not tested the flags
    | Checked      // flags were fine; the message is not queued yet
    | Failing      // `_send_message` raised; the entry is still in the tracker
    | Popped       // entry removed; the exception is not set yet
    | Returned
    | Unencoded    // the payload could not be encoded: that exception left `send_request`, the entry stays
    | Stranded     // the flags were fine, but the worker is gone or the token has no UTF-8: likewise
    | CancelBegun  // the caller cancelled the future; its callback runs
    | CancelTaken  // the callback removed an entry; the cancel message is not queued yet
    | CancelDone

  datatype Future = Unset | Result(answerTo: nat) | Failed | Cancelled

  /** How a request left the server side; `gaveUp` is explained in `Handlers.CutShort`. */
  datatype Ending = Lost | Interrupted | Completed(gaveUp: bool)

  datatype Phase = Unsent | Queued | Handled(task: nat) | Over(ending: Ending)

  datatype Call = Call(
    id: Id,
    pendingAfter: nat,
    command: Command,
    stage: Stage,
    future: Future,
    phase: Phase,
    replies: nat,
    cancels: nat)

  /** Client to server. The target of a cancel message is an id; its tag is the call it was sent for. */
  datatype Message = Request(id: Id, tag: nat) | CancelMessage(target: Id, tag: nat)

  /** Server to client: a reply, or anything sent under id 0. */
  datatype Delivery = Reply(id: Id, tag: nat) | ZeroId

  /** The worker removed the entry of call `entry` because of a reply to call `answerTo`. */
  datatype Taken = Taken(entry: nat, answerTo: nat)

  datatype Client = Client(
    admission: Admission,  // the server's check of this client's token
    cursor: Id,
    pending: map<Id, nat>,
    calls: seq<Call>,
    entered: nat,          // threads past the first flag test of send_request, without an id yet
    closed: bool,
    running: bool,
    trackerClosed: bool,   // `close` has emptied the tracker
    sendQueue: seq<Message>,
    uplink: seq<Message>,
    downlink: seq<Delivery>,
    resolving: Option<Taken>)

  datatype Action =
    | Enter
    | Allocate(id: Id, command: Command)
    | TestFlags(k: nat)
    | FailToEncode(k: nat)
    | Enqueue(k: nat, accepted: bool)
    | Strand(k: nat)
    | PopFailed(k: nat)
    | FailFuture(k: nat)
    | UserCancel(k: nat)
    | CancelPop(k: nat)
    | QueueCancel(k: nat, sent: bool)
    | SendHead(sent: bool)
    | TakeReply(dispatched: bool)
    | CompleteReply(decodes: bool)
    | StopWorker
    | WorkerCleanup
    | CloseFlags
    | CloseTracker

  /** The first completion of a future stands. */
  function FirstWins(now: Future, attempt: Future): Future {
    if now.Unset? then attempt else now
  }

  function Outbound(c: Client): seq<Message> {
    c.uplink + c.sendQueue
  }

  // ----- The server side

  datatype Task = Task(
    identity: Identity,
    id: Id,
    tag: nat,
    registered: bool,      // in `_inflight_tasks`; a handler that only rejects a bad token is not
    handler: Handler,
    cancelRequested: bool)

  datatype State = State(
    clients: map<Identity, Client>,
    tasks: map<nat, Task>,
    nextTask: nat,
    inflight: map<(Identity, int), nat>,
    sessions: Metrics.Sessions)

  datatype Step =
    | ClientStep(i: Identity, action: Action)
    | Accept(i: Identity, situation: Situation, now: Time)
    | Progress(t: nat, outcome: Outcome, now: Time)
    | Unwind(t: nat, now: Time)
    | SendZero(i: Identity)
    | Snapshot(now: Time)

  // ----- What is still around

  /** A thread will still use the id of this call to look into the tracker, or to send it. */
  predicate ThreadHolds(x: Call) {
    x.stage.Allocated? || x.stage.Checked? || x.stage.Failing? || x.stage.CancelBegun? || x.stage.CancelTaken?
  }

  predicate InMessages(q: seq<Message>, k: nat) {
    exists m :: m in q && m.tag == k
  }

  predicate InTasks(tasks: map<nat, Task>, i: Identity, k: nat) {
    exists t :: t in tasks && tasks[t].identity == i && tasks[t].tag == k
  }

  predicate InDeliveries(q: seq<Delivery>, k: nat) {
    exists d :: d in q && d.Reply? && d.tag == k
  }

  /** The request, a cancel message for it, its handler, its reply, or a thread working on it still exists. */
  predicate Present(c: Client, i: Identity, tasks: map<nat, Task>, k: nat)
    requires k < |c.calls|
  {
    || ThreadHolds(c.calls[k])
    || InMessages(Outbound(c), k)
    || InTasks(tasks, i, k)
    || InDeliveries(c.downlink, k)
    || (c.resolving.Some? && c.resolving.value.entry == k)
  }

  /** At most MAX_ID - pendingAfter allocations may follow a call that is still present, the next one included. */
  predicate ReuseBound(c: Client, i: Identity, tasks: map<nat, Task>) {
    forall k | 0 <= k < |c.calls| ::
      Present(c, i, tasks, k) ==> |c.calls| - k <= MAX_ID - c.calls[k].pendingAfter
  }

  // ----- Client steps

  ghost predicate CanAct(c: Client, i: Identity, tasks: map<nat, Task>, a: Action) {
    match a
    case Enter => !c.closed && c.running
    case Allocate(id, command) =>
      && c.entered > 0 && command != CANCEL_REQUEST
      && IsFirstFree(c.cursor, c.pending.Keys, id)
      && ReuseBound(c, i, tasks)
    case TestFlags(k) => k < |c.calls| && c.calls[k].stage == Allocated
    case FailToEncode(k) => k < |c.calls| && c.calls[k].stage == Allocated
    case Enqueue(k, _) => k < |c.calls| && c.calls[k].stage == Checked
    case Strand(k) => k < |c.calls| && c.calls[k].stage == Checked
    case PopFailed(k) => k < |c.calls| && c.calls[k].stage == Failing
    case FailFuture(k) => k < |c.calls| && c.calls[k].stage == Popped
    case UserCancel(k) => k < |c.calls| && c.calls[k].stage == Returned && c.calls[k].future == Unset
    case CancelPop(k) => k < |c.calls| && c.calls[k].stage == CancelBegun
    case QueueCancel(k, _) => k < |c.calls| && c.calls[k].stage == CancelTaken
    case SendHead(_) => c.sendQueue != []
    case TakeReply(_) => c.downlink != [] && c.resolving.None?
    case CompleteReply(_) => c.resolving.Some? && c.resolving.value.entry < |c.calls|
    case StopWorker => true
    case WorkerCleanup => true
    case CloseFlags => !c.closed
    case CloseTracker => c.closed && !c.trackerClosed
  }

  /** `RequestTracker.close`: every pending future is rejected, the table is emptied. */
  function Emptied(c: Client): Client {
    c.(pending := map[],
       calls := seq(|c.calls|, k requires 0 <= k < |c.calls| =>
         if k in c.pending.Values then c.calls[k].(future := FirstWins(c.calls[k].future, Failed)) else c.calls[k]))
  }

  /** What the step needs in order to make sense at all. */
  predicate Applies(c: Client, a: Action) {
    match a
    case Allocate(_, _) => c.entered > 0
    case TestFlags(k) => k < |c.calls|
    case FailToEncode(k) => k < |c.calls|
    case Enqueue(k, _) => k < |c.calls|
    case Strand(k) => k < |c.calls|
    case PopFailed(k) => k < |c.calls|
    case FailFuture(k) => k < |c.calls|
    case UserCancel(k) => k < |c.calls|
    case CancelPop(k) => k < |c.calls|
    case QueueCancel(k, _) => k < |c.calls|
    case SendHead(_) => c.sendQueue != []
    case TakeReply(_) => c.downlink != []
    case CompleteReply(_) => c.resolving.Some? && c.resolving.value.entry < |c.calls|
    case _ => true
  }

  function Act(c: Client, a: Action): Client
    requires Applies(c, a)
  {
    match a
    case Enter => c.(entered := c.entered + 1)
    case Allocate(id, command) =>
      var pending := c.pending[id := |c.calls|];
      c.(entered := c.entered - 1, cursor := Successor(id), pending := pending,
         calls := c.calls + [Call(id, |pending.Keys|, command, Allocated, Unset, Unsent, 0, 0)])
    case TestFlags(k) =>
      WithCall(c, k, c.calls[k].(stage := if c.closed || !c.running then Failing else Checked))
    case FailToEncode(k) => WithCall(c, k, c.calls[k].(stage := Unencoded))
    case Strand(k) => WithCall(c, k, c.calls[k].(stage := Stranded))
    case Enqueue(k, accepted) =>
      if accepted then
        WithCall(c, k, c.calls[k].(stage := Returned, phase := Queued))
        .(sendQueue := c.sendQueue + [Request(c.calls[k].id, k)])
      else
        WithCall(c, k, c.calls[k].(stage := Failing))
    case PopFailed(k) =>
      WithCall(c, k, c.calls[k].(stage := Popped)).(pending := c.pending - {c.calls[k].id})
    case FailFuture(k) =>
      WithCall(c, k, c.calls[k].(stage := Returned, future := FirstWins(c.calls[k].future, Failed)))
    case UserCancel(k) =>
      WithCall(c, k, c.calls[k].(stage := CancelBegun, future := FirstWins(c.calls[k].future, Cancelled)))
    case CancelPop(k) =>
      var id := c.calls[k].id;
      if id in c.pending then
        var e := c.pending[id];
        var cancelled := if e >= |c.calls| then c
                         else WithCall(c, e, c.calls[e].(future := FirstWins(c.calls[e].future, Cancelled)));
        WithCall(cancelled, k, cancelled.calls[k].(stage := CancelTaken)).(pending := c.pending - {id})
      else
        WithCall(c, k, c.calls[k].(stage := CancelDone))
    case QueueCancel(k, sent) =>
      var x := c.calls[k].(stage := CancelDone);
      if sent then
        WithCall(c, k, x.(cancels := x.cancels + 1)).(sendQueue := c.sendQueue + [CancelMessage(x.id, k)])
      else
        WithCall(c, k, x)
    case SendHead(sent) =>
      var m := c.sendQueue[0];
      if sent then c.(sendQueue := c.sendQueue[1..], uplink := c.uplink + [m])
      else if m.Request? && m.tag < |c.calls| then
        WithCall(c, m.tag, c.calls[m.tag].(phase := Over(Lost))).(sendQueue := c.sendQueue[1..])
      else c.(sendQueue := c.sendQueue[1..])
    case TakeReply(dispatched) =>
      var d := c.downlink[0];
      var rest := c.(downlink := c.downlink[1..]);
      if dispatched && d.Reply? && d.id in c.pending then
        rest.(pending := c.pending - {d.id}, resolving := Some(Taken(c.pending[d.id], d.tag)))
      else rest
    case CompleteReply(decodes) =>
      var Taken(entry, answerTo) := c.resolving.value;
      var outcome := if decodes then Result(answerTo) else Failed;
      WithCall(c, entry, c.calls[entry].(future := FirstWins(c.calls[entry].future, outcome))).(resolving := None)
    case StopWorker => c.(running := false)
    case WorkerCleanup => Emptied(c)
    case CloseFlags => c.(closed := true, running := false)
    case CloseTracker => Emptied(c).(trackerClosed := true)
  }

  function WithCall(c: Client, k: nat, x: Call): Client
    requires k < |c.calls|
  {
    c.(calls := c.calls[k := x])
  }

  // ----- Server steps

  function WithPhase(c: Client, k: nat, p: Phase): Client {
    if k < |c.calls| then WithCall(c, k, c.calls[k].(phase := p)) else c
  }

  /**
   `_handle_request` up to the first await of the handler. A cancel request has none and runs through; so does a
   request whose handler is left by an exception before.
   */
  function AcceptMessage(s: State, i: Identity, situation: Situation, now: Time): State
    requires i in s.clients && s.clients[i].uplink != []
  {
    var c := s.clients[i];
    var rest := c.(uplink := c.uplink[1..]);
    match c.uplink[0]
    case Request(id, tag) =>
      var command := if tag < |c.calls| then c.calls[tag].command else UNKNOWN;
      var handler := Receive(c.admission, command, situation);
      if handler.Ended? then
        RunThrough(s.(clients := s.clients[i := WithPhase(rest, tag, Over(Completed(true)))]), i, id, now)
      else
        var accepted := s.(
          clients := s.clients[i := WithPhase(rest, tag, Handled(s.nextTask))],
          tasks := s.tasks[s.nextTask := Task(i, id, tag, c.admission.Admitted?, handler, false)],
          nextTask := s.nextTask + 1);
        if c.admission.Admitted? then
          accepted.(inflight := s.inflight[(i, id as int) := s.nextTask],
                    sessions := Metrics.Started(s.sessions, i, now))
        else
          accepted
    case CancelMessage(target, _) =>
      var dropped := s.(clients := s.clients[i := rest]);
      var key := (i, target as int);
      if c.admission.Admitted? && key in s.inflight && s.inflight[key] in s.tasks then
        var marked := s.tasks[s.inflight[key]].(cancelRequested := true);
        RunThrough(dropped.(tasks := s.tasks[s.inflight[key] := marked]), i, 0, now)
      else
        RunThrough(dropped, i, 0, now)
  }

  /** A handler that never waits: registered and counted if it was admitted, and then not any more. */
  function RunThrough(s: State, i: Identity, id: int, now: Time): State
    requires i in s.clients
  {
    if s.clients[i].admission.Admitted? then
      s.(inflight := s.inflight - {(i, id)},
         sessions := Metrics.Ended(Metrics.Started(s.sessions, i, now), i, now))
    else
      s
  }

  /** The `finally` of `_handle_request`. */
  function EndTask(s: State, t: nat, ending: Ending, now: Time): State
    requires t in s.tasks
  {
    var task := s.tasks[t];
    var ended := s.(
      tasks := s.tasks - {t},
      clients := if task.identity in s.clients
                 then s.clients[task.identity := WithPhase(s.clients[task.identity], task.tag, Over(ending))]
                 else s.clients);
    if task.registered then
      ended.(sessions := Metrics.Ended(s.sessions, task.identity, now),
             inflight := s.inflight - {(task.identity, task.id as int)})
    else
      ended
  }

  /** What a handler puts on the socket reaches the downlink of its own client. */
  function Emit(c: Client, task: Task, e: Emission): Client {
    match e
    case Nothing => c
    case StoredEvent => c.(downlink := c.downlink + [ZeroId])
    case ReplyWith(_) =>
      var counted := if task.tag < |c.calls|
                     then WithCall(c, task.tag, c.calls[task.tag].(replies := c.calls[task.tag].replies + 1)) else c;
      counted.(downlink := c.downlink + [Reply(task.id, task.tag)])
  }

  function ProgressTask(s: State, t: nat, o: Outcome, now: Time): State
    requires t in s.tasks
  {
    var task := s.tasks[t];
    var next := Resume(task.handler, o);
    var emitted := if task.identity in s.clients
                   then s.(clients := s.clients[task.identity :=
                                                Emit(s.clients[task.identity], task, Emitted(task.handler, o))])
                   else s;
    if next.Ended? then EndTask(emitted, t, Completed(CutShort(task.handler, o)), now)
    else emitted.(tasks := s.tasks[t := task.(handler := next)])
  }

  ghost predicate Enabled(s: State, step: Step) {
    match step
    case ClientStep(i, action) => i in s.clients && CanAct(s.clients[i], i, s.tasks, action)
    case Accept(i, _, _) => i in s.clients && s.clients[i].uplink != []
    case Progress(t, _, _) => t in s.tasks && !s.tasks[t].cancelRequested
    case Unwind(t, _) => t in s.tasks && s.tasks[t].cancelRequested
    case SendZero(i) => i in s.clients
    case Snapshot(_) => true
  }

  function Apply(s: State, step: Step): State
    requires Enabled(s, step)
  {
    match step
    case ClientStep(i, action) => s.(clients := s.clients[i := Act(s.clients[i], action)])
    case Accept(i, situation, now) => AcceptMessage(s, i, situation, now)
    case Progress(t, outcome, now) => ProgressTask(s, t, outcome, now)
    case Unwind(t, now) => EndTask(s, t, Interrupted, now)
    case SendZero(i) =>
      s.(clients := s.clients[i := s.clients[i].(downlink := s.clients[i].downlink + [ZeroId])])
    case Snapshot(now) => s.(sessions := Metrics.Evicted(s.sessions, now))
  }

  // ----- Runs

  /** Started transports, nothing sent yet; `identities` maps each client to what the check of its token gives. */
  function Initial(identities: map<Identity, Admission>): State {
    State(
      map i | i in identities ::
        Client(identities[i], 1, map[], [], 0, false, true, false, [], [], [], None),
      map[], 0, map[], map[])
  }

  ghost predicate IsRun(s: State, steps: seq<Step>)
    decreases steps
  {
    steps != [] ==> Enabled(s, steps[0]) && IsRun(Apply(s, steps[0]), steps[1..])
  }

  function Last(s: State, steps: seq<Step>): State
    requires IsRun(s, steps)
    decreases steps
  {
    if steps == [] then s else Last(Apply(s, steps[0]), steps[1..])
  }
}
