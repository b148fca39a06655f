/**
 What the protocol achieves when nothing goes wrong: a reply that arrives completes the future of its call, every
 request can still be answered, and every cancellation can still reach the handler it is for. Each statement holds
 from every state a run can reach.
 */
module ProtocolProgress {
  import opened IdRing
  import opened Wire
  import opened Handlers
  import opened Protocol
  import opened ProtocolInvariant
  import opened ProtocolTheorems

  // ----- Runs put together

  lemma Follows(s: State, step: Step, rest: seq<Step>)
    requires Enabled(s, step) && IsRun(Apply(s, step), rest)
    ensures IsRun(s, [step] + rest) && Last(s, [step] + rest) == Last(Apply(s, step), rest)
  {
    assert ([step] + rest)[1..] == rest;
  }

  // ----- A reply arrives

  /** The call is in the tracker and its future is unset. */
  predicate Waits(c: Client, k: nat) {
    k < |c.calls| && InTracker(c, k) && c.calls[k].future == Unset
  }

  /** From `s` to `s'`, call `k` of client `i` gets the future `f`; no other future and no other client changes. */
  predicate OnlyFuture(s: State, s': State, i: Identity, k: nat, f: Future) {
    && i in s.clients && i in s'.clients && s'.clients == s.clients[i := s'.clients[i]]
    && |s'.clients[i].calls| == |s.clients[i].calls| && k < |s.clients[i].calls|
    && s'.clients[i].calls[k].future == f
    && forall j | 0 <= j < |s.clients[i].calls| && j != k ::
         s'.clients[i].calls[j].future == s.clients[i].calls[j].future
  }

  /** What the worker does about the reply to call `k`. */
  function Receiving(i: Identity, decodes: bool): seq<Step> {
    [ClientStep(i, TakeReply(true)), ClientStep(i, CompleteReply(decodes))]
  }

  /** The reply at the head of the downlink completes the future of its call, and no other: with itself or an error. */
  lemma ReplyCompletes(identities: map<Identity, Admission>, steps: seq<Step>, s: State, i: Identity, k: nat,
                       decodes: bool)
    requires Reached(identities, steps, s) && i in s.clients && Waits(s.clients[i], k)
    requires s.clients[i].resolving == None && s.clients[i].downlink != []
    requires s.clients[i].downlink[0].Reply? && s.clients[i].downlink[0].tag == k
    ensures IsRun(s, Receiving(i, decodes))
    ensures OnlyFuture(s, Last(s, Receiving(i, decodes)), i, k, if decodes then Result(k) else Failed)
    ensures !InTracker(Last(s, Receiving(i, decodes)).clients[i], k)
  {
    ReachedInv(identities, steps, s);
    var d := ReplyIsReceived(s, i, k, decodes);
    FutureIsSet(s, Last(s, Receiving(i, decodes)), i, d, k, if decodes then Result(k) else Failed);
  }

  lemma FutureIsSet(s: State, s': State, i: Identity, d: Client, k: nat, f: Future)
    requires i in s.clients && k < |s.clients[i].calls| && s' == Acted(s, i, d)
    requires d.calls == s.clients[i].calls[k := s.clients[i].calls[k].(future := f)]
    requires d.pending == s.clients[i].pending - {s.clients[i].calls[k].id}
    ensures OnlyFuture(s, s', i, k, f) && !InTracker(s'.clients[i], k)
  {}

  /** Client `i` acts. */
  function Acted(s: State, i: Identity, d: Client): State {
    s.(clients := s.clients[i := d])
  }

  lemma ActStep(s: State, i: Identity, a: Action)
    requires i in s.clients && CanAct(s.clients[i], i, s.tasks, a)
    ensures Enabled(s, ClientStep(i, a)) && Apply(s, ClientStep(i, a)) == Acted(s, i, Act(s.clients[i], a))
  {}

  lemma Single(s: State, step: Step, next: State)
    requires Enabled(s, step) && Apply(s, step) == next
    ensures IsRun(s, [step]) && Last(s, [step]) == next
  {
    assert [step][1..] == [];
  }

  lemma TwoActs(s: State, i: Identity, a: Action, b: Action, mid: Client)
    requires i in s.clients && CanAct(s.clients[i], i, s.tasks, a) && mid == Act(s.clients[i], a)
    requires CanAct(mid, i, s.tasks, b)
    ensures var run := [ClientStep(i, a), ClientStep(i, b)];
            IsRun(s, run) && Last(s, run) == Acted(s, i, Act(mid, b))
  {
    ActStep(s, i, a);
    ActStep(Acted(s, i, mid), i, b);
    Single(Acted(s, i, mid), ClientStep(i, b), Acted(s, i, Act(mid, b)));
    Follows(s, ClientStep(i, a), [ClientStep(i, b)]);
    assert [ClientStep(i, a)] + [ClientStep(i, b)] == [ClientStep(i, a), ClientStep(i, b)];
  }

  /** The client after the reply to call `k` has been received. */
  lemma ReplyEffect(c: Client, taken: Client, k: nat, decodes: bool)
    requires Waits(c, k) && c.downlink != [] && c.downlink[0].Reply? && c.downlink[0].tag == k
    requires OwnEntryTaken(c, taken, true)
    ensures taken.resolving == Some(Taken(k, k)) && k < |taken.calls|
    ensures var d := Act(taken, CompleteReply(decodes));
            && d.calls == c.calls[k := c.calls[k].(future := if decodes then Result(k) else Failed)]
            && d.pending == c.pending - {c.calls[k].id}
  {}

  lemma ReplyIsReceived(s: State, i: Identity, k: nat, decodes: bool) returns (d: Client)
    requires Inv(s) && i in s.clients && Waits(s.clients[i], k)
    requires s.clients[i].resolving == None && s.clients[i].downlink != []
    requires s.clients[i].downlink[0].Reply? && s.clients[i].downlink[0].tag == k
    ensures IsRun(s, Receiving(i, decodes)) && Last(s, Receiving(i, decodes)) == Acted(s, i, d)
    ensures var c := s.clients[i];
            && d.calls == c.calls[k := c.calls[k].(future := if decodes then Result(k) else Failed)]
            && d.pending == c.pending - {c.calls[k].id}
  {
    TakesOwnEntry(s, i, true);
    ReplyEffect(s.clients[i], Act(s.clients[i], TakeReply(true)), k, decodes);
    TwoActs(s, i, TakeReply(true), CompleteReply(decodes), Act(s.clients[i], TakeReply(true)));
    d := Act(Act(s.clients[i], TakeReply(true)), CompleteReply(decodes));
  }

  // ----- Nothing goes wrong

  /** The dispatch finds nothing to complain about. */
  const SMOOTH: Situation := Situation(Decoding.Decoded, true, false, true, Done, true, 0)

  /** A step that does its part for call `k` of client `i`: messages are sent and accepted, awaits end well. */
  predicate SmoothStep(i: Identity, k: nat, step: Step) {
    match step
    case ClientStep(j, a) =>
      j == i && (a == TestFlags(k) || a == Enqueue(k, true) || a == UserCancel(k) || a == CancelPop(k)
                 || a == QueueCancel(k, true) || a == SendHead(true) || a == TakeReply(true)
                 || a == CompleteReply(true))
    case Accept(j, situation, _) => j == i && situation == SMOOTH
    case Progress(_, outcome, _) => outcome == Done
    case _ => false
  }

  predicate Smooth(i: Identity, k: nat, run: seq<Step>) {
    forall step | step in run :: SmoothStep(i, k, step)
  }

  /** Where a request, or its answer, is. */
  datatype Place =
    | WithId
    | InThread
    | InQueue(p: nat)
    | InUplink(p: nat)
    | WithHandler(t: nat)
    | InDownlink(p: nat)
    | InWorker
    | Arrived

  /** How many awaits have to end well for the handler to have replied; none if it has already, or never will. */
  function Awaits(h: Handler): nat {
    match h
    case Replying(_, _) => 1
    case Replaying(_) => 0
    case SendingClipInfo => 1
    case Rendering => 3
    case Compressing => 2
    case SendingFrame => 1
    case SendingFrameError => 1
    case Executing => 2
    case SendingResult => 1
    case TearingDown(_) => 2
    case SendingLoadError(_) => 1
    case Ended => 0
  }

  predicate ReplyTo(d: Delivery, k: nat) {
    d.Reply? && d.tag == k
  }

  /** A handler that works for call `k` and has not been told to stop. */
  predicate WorksFor(task: Task, i: Identity, k: nat) {
    task.identity == i && task.tag == k && !task.cancelRequested && Awaits(task.handler) > 0
  }

  /** The client's part of being at a place. */
  predicate ClientAt(c: Client, k: nat, place: Place) {
    && k < |c.calls| && c.admission != CheckRaised
    && match place
       case WithId => Waits(c, k) && c.calls[k].stage == Allocated && !c.closed && c.running
       case InThread => Waits(c, k) && c.calls[k].stage == Checked
       case InQueue(p) => Waits(c, k) && p < |c.sendQueue| && c.sendQueue[p] == Request(c.calls[k].id, k)
       case InUplink(p) => Waits(c, k) && p < |c.uplink| && c.uplink[p] == Request(c.calls[k].id, k)
       case WithHandler(t) => Waits(c, k)
       case InDownlink(p) => Waits(c, k) && p < |c.downlink| && ReplyTo(c.downlink[p], k)
       case InWorker => c.calls[k].future == Unset && c.resolving == Some(Taken(k, k))
       case Arrived => c.calls[k].future == Result(k)
  }

  predicate At(s: State, i: Identity, k: nat, place: Place) {
    && i in s.clients && ClientAt(s.clients[i], k, place)
    && (place.WithHandler? ==> place.t in s.tasks && WorksFor(s.tasks[place.t], i, k))
  }

  function Stations(place: Place): nat {
    match place
    case WithId => 7
    case InThread => 6
    case InQueue(_) => 5
    case InUplink(_) => 4
    case WithHandler(_) => 3
    case InDownlink(_) => 2
    case InWorker => 1
    case Arrived => 0
  }

  /** How much has to happen at this place. */
  function Left(c: Client, tasks: map<nat, Task>, place: Place): nat {
    match place
    case InQueue(p) => p
    case InUplink(p) => p
    case WithHandler(t) => if t in tasks then Awaits(tasks[t].handler) else 0
    case InDownlink(p) => 2 * p + if c.resolving.Some? then 1 else 0
    case _ => 0
  }

  /** Once client and handlers have become `d` and `tasks'`, `place'` is nearer to the end than `place` was. */
  predicate Nearer(c: Client, tasks: map<nat, Task>, place: Place, d: Client, tasks': map<nat, Task>, place': Place) {
    || Stations(place') < Stations(place)
    || (Stations(place') == Stations(place) && Left(d, tasks', place') < Left(c, tasks, place))
  }

  // ----- Client steps

  lemma TestLeads(c: Client, k: nat)
    requires ClientAt(c, k, WithId)
    ensures ClientAt(Act(c, TestFlags(k)), k, InThread)
  {}

  lemma EnqueueLeads(c: Client, k: nat)
    requires ClientAt(c, k, InThread)
    ensures ClientAt(Act(c, Enqueue(k, true)), k, InQueue(|c.sendQueue|))
  {}

  lemma SendLeads(c: Client, k: nat, p: nat)
    requires ClientAt(c, k, InQueue(p))
    ensures ClientAt(Act(c, SendHead(true)), k, if p == 0 then InUplink(|c.uplink|) else InQueue(p - 1))
  {}

  lemma TakeLeads(c: Client, d: Client, k: nat, p: nat)
    requires ClientAt(c, k, InDownlink(p)) && OwnEntryTaken(c, d, true)
    ensures ClientAt(d, k, if ReplyTo(c.downlink[0], k) then InWorker else InDownlink(p - 1))
  {}

  lemma CompleteLeads(c: Client, k: nat, p: nat)
    requires ClientAt(c, k, InDownlink(p)) && AnswerOk(c) && c.resolving.Some?
    ensures ClientAt(Act(c, CompleteReply(true)), k, InDownlink(p)) && Act(c, CompleteReply(true)).resolving == None
  {}

  lemma WorkerLeads(c: Client, k: nat)
    requires ClientAt(c, k, InWorker)
    ensures ClientAt(Act(c, CompleteReply(true)), k, Arrived)
  {}

  /** What the client does next for call `k`. */
  function NextAct(c: Client, k: nat, place: Place): Action {
    match place
    case WithId => TestFlags(k)
    case InThread => Enqueue(k, true)
    case InQueue(_) => SendHead(true)
    case InDownlink(_) => if c.resolving.Some? then CompleteReply(true) else TakeReply(true)
    case _ => CompleteReply(true)
  }

  predicate ClientMoves(place: Place) {
    place.WithId? || place.InThread? || place.InQueue? || place.InDownlink? || place.InWorker?
  }

  lemma ClientAdvances(c: Client, i: Identity, tasks: map<nat, Task>, k: nat, place: Place) returns (place': Place)
    requires ClientAt(c, k, place) && ClientMoves(place) && AnswerOk(c)
    requires place.InDownlink? && c.resolving == None ==> OwnEntryTaken(c, Act(c, TakeReply(true)), true)
    ensures var a := NextAct(c, k, place);
            && CanAct(c, i, tasks, a) && ClientAt(Act(c, a), k, place') && !place'.WithHandler?
            && Nearer(c, tasks, place, Act(c, a), tasks, place')
  {
    match place
    case WithId =>
      TestLeads(c, k);
      place' := InThread;
    case InThread =>
      EnqueueLeads(c, k);
      place' := InQueue(|c.sendQueue|);
    case InQueue(p) =>
      SendLeads(c, k, p);
      place' := if p == 0 then InUplink(|c.uplink|) else InQueue(p - 1);
    case InDownlink(p) =>
      if c.resolving.Some? {
        CompleteLeads(c, k, p);
        place' := place;
      } else {
        TakeLeads(c, Act(c, TakeReply(true)), k, p);
        place' := if ReplyTo(c.downlink[0], k) then InWorker else InDownlink(p - 1);
      }
    case InWorker =>
      WorkerLeads(c, k);
      place' := Arrived;
  }

  lemma ClientFacts(s: State, i: Identity, k: nat, place: Place)
    requires i in s.clients && ClientAt(s.clients[i], k, place) && Inv(s)
    ensures AnswerOk(s.clients[i]) && CallOk(s.clients[i].calls[k])
    ensures place.InDownlink? && s.clients[i].resolving == None ==>
              OwnEntryTaken(s.clients[i], Act(s.clients[i], TakeReply(true)), true)
  {
    assert ClientInv(s.clients[i], i, s.tasks);
    if place.InDownlink? && s.clients[i].resolving == None {
      TakesOwnEntry(s, i, true);
    }
  }

  lemma ClientStepLeads(s: State, i: Identity, k: nat, place: Place) returns (step: Step, place': Place)
    requires At(s, i, k, place) && ClientMoves(place) && AnswerOk(s.clients[i])
    requires place.InDownlink? && s.clients[i].resolving == None ==>
               OwnEntryTaken(s.clients[i], Act(s.clients[i], TakeReply(true)), true)
    ensures Enabled(s, step) && SmoothStep(i, k, step) && At(Apply(s, step), i, k, place')
    ensures Nearer(s.clients[i], s.tasks, place, Apply(s, step).clients[i], Apply(s, step).tasks, place')
  {
    var a := NextAct(s.clients[i], k, place);
    place' := ClientAdvances(s.clients[i], i, s.tasks, k, place);
    ActStep(s, i, a);
    step := ClientStep(i, a);
  }

  // ----- Server steps

  /** Every handler is still there, where it was; it may have been told to stop. */
  predicate TasksStay(tasks: map<nat, Task>, tasks': map<nat, Task>) {
    forall t | t in tasks ::
      t in tasks' && (tasks'[t] == tasks[t] || tasks'[t] == tasks[t].(cancelRequested := true))
  }

  /** The head of the uplink is gone; of the client's calls at most phases and reply counts have changed. */
  predicate HeadAccepted(c: Client, d: Client) {
    && c.uplink != [] && d == c.(uplink := c.uplink[1..], calls := d.calls) && |d.calls| == |c.calls|
    && forall k | 0 <= k < |c.calls| :: d.calls[k] == c.calls[k].(phase := d.calls[k].phase)
  }

  lemma PhaseOnly(c: Client, k: nat, p: Phase)
    requires c.uplink != []
    ensures HeadAccepted(c, WithPhase(c.(uplink := c.uplink[1..]), k, p))
  {}

  lemma RequestAcceptedSmoothly(s: State, i: Identity, now: Time)
    requires TasksKnown(s) && i in s.clients && s.clients[i].uplink != [] && s.clients[i].uplink[0].Request?
    requires s.clients[i].uplink[0].tag < |s.clients[i].calls|
    requires (i, s.clients[i].uplink[0].id as int) !in s.inflight
    ensures var s' := AcceptMessage(s, i, SMOOTH, now);
            i in s'.clients && HeadAccepted(s.clients[i], s'.clients[i]) && TasksStay(s.tasks, s'.tasks)
  {
    var c, m := s.clients[i], s.clients[i].uplink[0];
    if FirstHandler(c, m.tag, SMOOTH).Ended? {
      LostShape(s, i, SMOOTH, now);
      PhaseOnly(c, m.tag, Over(Completed(true)));
    } else {
      AcceptShape(s, i, SMOOTH, now);
      PhaseOnly(c, m.tag, Handled(s.nextTask));
      assert s.nextTask !in s.tasks;
    }
  }

  lemma CancelAcceptedSmoothly(s: State, i: Identity, now: Time)
    requires InflightOk(s) && i in s.clients && s.clients[i].uplink != [] && s.clients[i].uplink[0].CancelMessage?
    ensures var s' := AcceptMessage(s, i, SMOOTH, now);
            i in s'.clients && HeadAccepted(s.clients[i], s'.clients[i]) && TasksStay(s.tasks, s'.tasks)
  {
    CancelShape(s, i, SMOOTH, now);
  }

  lemma AcceptedSmoothly(s: State, i: Identity, now: Time)
    requires Inv(s) && i in s.clients && s.clients[i].uplink != []
    ensures var s' := AcceptMessage(s, i, SMOOTH, now);
            i in s'.clients && HeadAccepted(s.clients[i], s'.clients[i]) && TasksStay(s.tasks, s'.tasks)
  {
    if s.clients[i].uplink[0].Request? {
      HeadRequest(s, i);
      RequestAcceptedSmoothly(s, i, now);
    } else {
      CancelAcceptedSmoothly(s, i, now);
    }
  }

  /** A handler that has just started to wait will reply. */
  lemma SmoothStart(a: Admission, cmd: Command)
    requires a != CheckRaised && cmd != CANCEL_REQUEST
    ensures Awaits(Receive(a, cmd, SMOOTH)) > 0
  {}

  /** The request of call `k` is accepted: its handler runs. */
  lemma OwnRequestAccepted(s: State, i: Identity, k: nat, now: Time)
    requires i in s.clients && ClientAt(s.clients[i], k, InUplink(0))
    requires s.clients[i].calls[k].command != CANCEL_REQUEST
    ensures var s', t := AcceptMessage(s, i, SMOOTH, now), s.nextTask;
            t in s'.tasks && WorksFor(s'.tasks[t], i, k)
  {
    SmoothStart(s.clients[i].admission, s.clients[i].calls[k].command);
    AcceptShape(s, i, SMOOTH, now);
  }

  lemma UplinkLeads(c: Client, d: Client, k: nat, p: nat)
    requires ClientAt(c, k, InUplink(p)) && HeadAccepted(c, d)
    ensures p > 0 ==> ClientAt(d, k, InUplink(p - 1))
    ensures forall t :: ClientAt(d, k, WithHandler(t))
  {}

  lemma AcceptLeads(s: State, i: Identity, k: nat, p: nat, now: Time) returns (place': Place)
    requires Inv(s) && At(s, i, k, InUplink(p))
    ensures var s' := AcceptMessage(s, i, SMOOTH, now);
            At(s', i, k, place') && Nearer(s.clients[i], s.tasks, InUplink(p), s'.clients[i], s'.tasks, place')
  {
    var c, s' := s.clients[i], AcceptMessage(s, i, SMOOTH, now);
    AcceptedSmoothly(s, i, now);
    UplinkLeads(c, s'.clients[i], k, p);
    if p > 0 {
      place' := InUplink(p - 1);
    } else {
      ClientFacts(s, i, k, InUplink(p));
      OwnRequestAccepted(s, i, k, now);
      place' := WithHandler(s.nextTask);
    }
  }

  // ----- The handler works

  /** While awaits end well, the reply comes nearer with each, and goes out with the last. */
  lemma AwaitsFall(h: Handler)
    requires Awaits(h) > 0
    ensures if Awaits(h) == 1 then Emitted(h, Done).ReplyWith?
            else Emitted(h, Done) == Nothing && Awaits(Resume(h, Done)) == Awaits(h) - 1
  {}

  /** Handler `t` works for call `k`; after an await that ended well it still does, or its reply is in the downlink. */
  lemma ProgressClientLeads(c: Client, k: nat, task: Task, t: nat)
    requires ClientAt(c, k, WithHandler(t)) && task.tag == k && Awaits(task.handler) > 0
    ensures ClientAt(ProgressClient(c, task, Done), k,
                     if Awaits(task.handler) == 1 then InDownlink(|c.downlink|) else WithHandler(t))
  {
    AwaitsFall(task.handler);
    EmitShape(c, task, Emitted(task.handler, Done));
  }

  lemma ProgressLeads(s: State, i: Identity, k: nat, t: nat, now: Time) returns (place': Place)
    requires At(s, i, k, WithHandler(t))
    ensures var s' := ProgressTask(s, t, Done, now);
            At(s', i, k, place') && Nearer(s.clients[i], s.tasks, WithHandler(t), s'.clients[i], s'.tasks, place')
  {
    var c, task := s.clients[i], s.tasks[t];
    ProgressShape(s, t, Done, now);
    AwaitsFall(task.handler);
    ProgressClientLeads(c, k, task, t);
    place' := if Awaits(task.handler) == 1 then InDownlink(|c.downlink|) else WithHandler(t);
  }

  // ----- Every place leads on

  lemma PlaceLeads(s: State, i: Identity, k: nat, place: Place, now: Time) returns (step: Step, place': Place)
    requires Inv(s) && At(s, i, k, place) && place != Arrived
    ensures Enabled(s, step) && SmoothStep(i, k, step) && At(Apply(s, step), i, k, place')
    ensures Nearer(s.clients[i], s.tasks, place, Apply(s, step).clients[i], Apply(s, step).tasks, place')
  {
    if place.InUplink? {
      place' := AcceptLeads(s, i, k, place.p, now);
      step := Accept(i, SMOOTH, now);
    } else if place.WithHandler? {
      place' := ProgressLeads(s, i, k, place.t, now);
      step := Progress(place.t, Done, now);
    } else {
      ClientFacts(s, i, k, place);
      step, place' := ClientStepLeads(s, i, k, place);
    }
  }

  /** The call has its own answer. */
  predicate HasAnswer(s: State, i: Identity, k: nat) {
    i in s.clients && k < |s.clients[i].calls| && s.clients[i].calls[k].future == Result(k)
  }

  /** In this run every step does its part for call `k`, and in the end the call has its own answer. */
  ghost predicate AnsweredBy(s: State, run: seq<Step>, i: Identity, k: nat) {
    IsRun(s, run) && Smooth(i, k, run) && HasAnswer(Last(s, run), i, k)
  }

  lemma AnsweredFirst(s: State, step: Step, rest: seq<Step>, i: Identity, k: nat)
    requires Enabled(s, step) && SmoothStep(i, k, step) && AnsweredBy(Apply(s, step), rest, i, k)
    ensures AnsweredBy(s, [step] + rest, i, k)
  {
    Follows(s, step, rest);
  }

  lemma {:induction false} PlaceArrives(s: State, i: Identity, k: nat, place: Place, now: Time) returns (run: seq<Step>)
    requires Inv(s) && At(s, i, k, place)
    ensures AnsweredBy(s, run, i, k)
    decreases Stations(place), if i in s.clients then Left(s.clients[i], s.tasks, place) else 0
  {
    if place == Arrived {
      run := [];
    } else {
      var step, place' := PlaceLeads(s, i, k, place, now);
      StepKeeps(s, step);
      run := PlaceArrives(Apply(s, step), i, k, place', now);
      AnsweredFirst(s, step, run, i, k);
      run := [step] + run;
    }
  }

  /**
   Wherever a request or its answer is, from any state a run can reach: it is answered in the end if every step does
   its part. A client whose token makes the check raise is the exception.
   */
  lemma EveryRequestCanBeAnswered(identities: map<Identity, Admission>, steps: seq<Step>, s: State, i: Identity,
                                  k: nat, place: Place, now: Time)
    returns (run: seq<Step>)
    requires Reached(identities, steps, s) && At(s, i, k, place)
    ensures AnsweredBy(s, run, i, k)
  {
    ReachedInv(identities, steps, s);
    run := PlaceArrives(s, i, k, place, now);
  }

  // ----- A cancellation

  /** Where the cancellation of a call is. */
  datatype CancelPlace =
    | Wanted
    | Begun
    | EntryTaken
    | MessageQueued(p: nat)
    | MessageSent(p: nat)
    | Marked

  predicate ClientCancelsAt(c: Client, k: nat, place: CancelPlace) {
    && k < |c.calls| && c.admission == Admitted
    && match place
       case Wanted => Waits(c, k) && c.calls[k].stage == Returned
       case Begun => InTracker(c, k) && c.calls[k].stage == CancelBegun
       case EntryTaken => c.calls[k].stage == CancelTaken
       case MessageQueued(p) => p < |c.sendQueue| && c.sendQueue[p] == CancelMessage(c.calls[k].id, k)
       case MessageSent(p) => p < |c.uplink| && c.uplink[p] == CancelMessage(c.calls[k].id, k)
       case Marked => true
  }

  /** ... while handler `t` works for the call; in the end it has been told to stop. */
  predicate CancelsAt(s: State, i: Identity, k: nat, t: nat, place: CancelPlace) {
    && i in s.clients && ClientCancelsAt(s.clients[i], k, place)
    && t in s.tasks && IsHandlerOf(s.tasks[t], i, k)
    && (place.Marked? ==> s.tasks[t].cancelRequested)
  }

  function CancelStations(place: CancelPlace): nat {
    match place
    case Wanted => 5
    case Begun => 4
    case EntryTaken => 3
    case MessageQueued(_) => 2
    case MessageSent(_) => 1
    case Marked => 0
  }

  function CancelLeft(place: CancelPlace): nat {
    match place
    case MessageQueued(p) => p
    case MessageSent(p) => p
    case _ => 0
  }

  predicate CancelNearer(place': CancelPlace, place: CancelPlace) {
    || CancelStations(place') < CancelStations(place)
    || (CancelStations(place') == CancelStations(place) && CancelLeft(place') < CancelLeft(place))
  }

  function CancelAct(k: nat, place: CancelPlace): Action {
    match place
    case Wanted => UserCancel(k)
    case Begun => CancelPop(k)
    case EntryTaken => QueueCancel(k, true)
    case _ => SendHead(true)
  }

  function NextCancelPlace(c: Client, place: CancelPlace): CancelPlace {
    match place
    case Wanted => Begun
    case Begun => EntryTaken
    case EntryTaken => MessageQueued(|c.sendQueue|)
    case MessageQueued(p) => if p == 0 then MessageSent(|c.uplink|) else MessageQueued(p - 1)
    case _ => Marked
  }

  predicate CallerCancels(place: CancelPlace) {
    place.Wanted? || place.Begun? || place.EntryTaken? || place.MessageQueued?
  }

  lemma CancelActLeads(c: Client, i: Identity, tasks: map<nat, Task>, k: nat, place: CancelPlace)
    requires ClientCancelsAt(c, k, place) && CallerCancels(place)
    requires place.Begun? ==> OwnEntryPopped(c, Act(c, CancelPop(k)), k)
    ensures CanAct(c, i, tasks, CancelAct(k, place))
    ensures ClientCancelsAt(Act(c, CancelAct(k, place)), k, NextCancelPlace(c, place))
  {}

  /** What accepting the head of the uplink does: among others, a cancel message marks the handlers of its call. */
  predicate AcceptedAs(s: State, s': State, i: Identity) {
    && i in s.clients && i in s'.clients && HeadAccepted(s.clients[i], s'.clients[i]) && TasksStay(s.tasks, s'.tasks)
    && (s.clients[i].uplink[0].CancelMessage? && s.clients[i].admission == Admitted ==>
          forall t | t in s.tasks && IsHandlerOf(s.tasks[t], i, s.clients[i].uplink[0].tag) ::
            t in s'.tasks && s'.tasks[t].cancelRequested)
  }

  /** What holds for a cancellation on its way. */
  ghost predicate CancelFacts(s: State, i: Identity, k: nat, place: CancelPlace, now: Time) {
    && i in s.clients && ClientCancelsAt(s.clients[i], k, place)
    && (place.Begun? ==> OwnEntryPopped(s.clients[i], Act(s.clients[i], CancelPop(k)), k))
    && (place.MessageSent? ==> AcceptedAs(s, AcceptMessage(s, i, SMOOTH, now), i))
  }

  lemma CancelFactsHold(s: State, i: Identity, k: nat, place: CancelPlace, now: Time)
    requires i in s.clients && ClientCancelsAt(s.clients[i], k, place) && Inv(s)
    ensures CancelFacts(s, i, k, place, now)
  {
    if place.Begun? {
      CancelPopInState(s, i, k);
    } else if place.MessageSent? {
      AcceptedSmoothly(s, i, now);
      if s.clients[i].uplink[0].CancelMessage? {
        CancelMarksOwn(s, i, SMOOTH, now);
      }
    }
  }

  lemma CallerLeads(s: State, i: Identity, k: nat, t: nat, place: CancelPlace, now: Time)
    requires CancelsAt(s, i, k, t, place) && CancelFacts(s, i, k, place, now) && CallerCancels(place)
    ensures var step := ClientStep(i, CancelAct(k, place));
            Enabled(s, step) && CancelsAt(Apply(s, step), i, k, t, NextCancelPlace(s.clients[i], place))
  {
    CancelActLeads(s.clients[i], i, s.tasks, k, place);
    ActStep(s, i, CancelAct(k, place));
  }

  lemma CancelMessageLeads(s: State, s': State, i: Identity, k: nat, t: nat, p: nat)
    requires CancelsAt(s, i, k, t, MessageSent(p)) && AcceptedAs(s, s', i)
    ensures CancelsAt(s', i, k, t, if p == 0 then Marked else MessageSent(p - 1))
  {}

  lemma CancelLeads(s: State, i: Identity, k: nat, t: nat, place: CancelPlace, now: Time)
    returns (step: Step, place': CancelPlace)
    requires CancelsAt(s, i, k, t, place) && CancelFacts(s, i, k, place, now) && place != Marked
    ensures Enabled(s, step) && SmoothStep(i, k, step) && CancelsAt(Apply(s, step), i, k, t, place')
    ensures CancelNearer(place', place)
  {
    if place.MessageSent? {
      CancelMessageLeads(s, AcceptMessage(s, i, SMOOTH, now), i, k, t, place.p);
      step, place' := Accept(i, SMOOTH, now), if place.p == 0 then Marked else MessageSent(place.p - 1);
    } else {
      CallerLeads(s, i, k, t, place, now);
      step, place' := ClientStep(i, CancelAct(k, place)), NextCancelPlace(s.clients[i], place);
    }
  }

  /** The handler has been told to stop. */
  predicate ToldToStop(s: State, t: nat) {
    t in s.tasks && s.tasks[t].cancelRequested
  }

  /** In this run every step does its part for call `k`, and in the end handler `t` has been told to stop. */
  ghost predicate StoppedBy(s: State, run: seq<Step>, i: Identity, k: nat, t: nat) {
    IsRun(s, run) && Smooth(i, k, run) && ToldToStop(Last(s, run), t)
  }

  lemma StoppedFirst(s: State, step: Step, rest: seq<Step>, i: Identity, k: nat, t: nat)
    requires Enabled(s, step) && SmoothStep(i, k, step) && StoppedBy(Apply(s, step), rest, i, k, t)
    ensures StoppedBy(s, [step] + rest, i, k, t)
  {
    Follows(s, step, rest);
  }

  lemma {:induction false} CancelArrives(s: State, i: Identity, k: nat, t: nat, place: CancelPlace, now: Time)
    returns (run: seq<Step>)
    requires Inv(s) && CancelsAt(s, i, k, t, place)
    ensures StoppedBy(s, run, i, k, t)
    decreases CancelStations(place), CancelLeft(place)
  {
    if place == Marked {
      run := [];
    } else {
      CancelFactsHold(s, i, k, place, now);
      var step, place' := CancelLeads(s, i, k, t, place, now);
      StepKeeps(s, step);
      run := CancelArrives(Apply(s, step), i, k, t, place', now);
      StoppedFirst(s, step, run, i, k, t);
      run := [step] + run;
    }
  }

  /** Wherever the cancellation of a call is, while its handler runs: the handler can still be told to stop. */
  lemma EveryCancellationCanArrive(identities: map<Identity, Admission>, steps: seq<Step>, s: State, i: Identity,
                                   k: nat, t: nat, place: CancelPlace, now: Time)
    returns (run: seq<Step>)
    requires Reached(identities, steps, s) && CancelsAt(s, i, k, t, place)
    ensures StoppedBy(s, run, i, k, t)
  {
    ReachedInv(identities, steps, s);
    run := CancelArrives(s, i, k, t, place, now);
  }

  // ----- What completes a future

  /** What the action makes of the unset future of call `k`. */
  function Completion(c: Client, a: Action, k: nat): Future
    requires k < |c.calls|
  {
    match a
    case CompleteReply(decodes) =>
      if c.resolving == Some(Taken(k, k)) then (if decodes then Result(k) else Failed) else Unset
    case UserCancel(j) => if j == k then Cancelled else Unset
    case FailFuture(j) => if j == k then Failed else Unset
    case WorkerCleanup => if InTracker(c, k) then Failed else Unset
    case CloseTracker => if InTracker(c, k) then Failed else Unset
    case _ => Unset
  }

  lemma ThreadCompletes(c: Client, a: Action, k: nat)
    requires a.FailFuture? || a.UserCancel?
    requires Applies(c, a) && k < |c.calls| && c.calls[k].future == Unset
    ensures k < |Act(c, a).calls| && Act(c, a).calls[k].future == Completion(c, a, k)
  {}

  lemma ThreadMovesOn(c: Client, a: Action, k: nat)
    requires a.TestFlags? || a.FailToEncode? || a.Strand? || a.PopFailed? || a.QueueCancel?
    requires Applies(c, a) && k < |c.calls|
    ensures k < |Act(c, a).calls| && Act(c, a).calls[k].future == c.calls[k].future
  {}

  lemma WorkerCompletes(c: Client, a: Action, k: nat)
    requires a.TakeReply? || a.CompleteReply? || a.WorkerCleanup? || a.CloseTracker?
    requires Applies(c, a) && k < |c.calls| && c.calls[k].future == Unset && AnswerOk(c) && PendingOk(c)
    ensures k < |Act(c, a).calls| && Act(c, a).calls[k].future == Completion(c, a, k)
  {}

  lemma PopCompletes(c: Client, a: Action, k: nat)
    requires a.CancelPop? && Applies(c, a) && OwnEntryPopped(c, Act(c, a), a.k)
    requires k < |c.calls| && c.calls[k].future == Unset
    ensures k < |Act(c, a).calls| && Act(c, a).calls[k].future == Unset
  {}

  lemma OtherActCompletes(c: Client, a: Action, k: nat)
    requires a.Enter? || a.Allocate? || a.StopWorker? || a.CloseFlags? || a.SendHead? || a.Enqueue?
    requires Applies(c, a) && k < |c.calls|
    ensures k < |Act(c, a).calls| && Act(c, a).calls[k].future == c.calls[k].future
  {
    if a.SendHead? {
      SendSpares(c, a, k);
    } else if a.Enqueue? {
      EnqueueSpares(c, a, k);
    }
  }

  lemma ActCompletes(c: Client, a: Action, k: nat)
    requires Applies(c, a) && k < |c.calls| && c.calls[k].future == Unset && AnswerOk(c) && PendingOk(c)
    requires a.CancelPop? ==> OwnEntryPopped(c, Act(c, a), a.k)
    ensures k < |Act(c, a).calls| && Act(c, a).calls[k].future == Completion(c, a, k)
  {
    if a.CancelPop? {
      PopCompletes(c, a, k);
    } else if a.TakeReply? || a.CompleteReply? || a.WorkerCleanup? || a.CloseTracker? {
      WorkerCompletes(c, a, k);
    } else if a.Enter? || a.Allocate? || a.StopWorker? || a.CloseFlags? || a.SendHead? || a.Enqueue? {
      OtherActCompletes(c, a, k);
    } else if a.FailFuture? || a.UserCancel? {
      ThreadCompletes(c, a, k);
    } else {
      ThreadMovesOn(c, a, k);
    }
  }

  lemma ClientStepFacts(s: State, i: Identity, a: Action)
    requires i in s.clients && CanAct(s.clients[i], i, s.tasks, a) && Inv(s)
    ensures AnswerOk(s.clients[i]) && PendingOk(s.clients[i])
    ensures a.CancelPop? ==> OwnEntryPopped(s.clients[i], Act(s.clients[i], a), a.k)
  {
    assert ClientInv(s.clients[i], i, s.tasks);
    if a.CancelPop? {
      CancelPopInState(s, i, a.k);
    }
  }

  /**
   Every way in which a future is completed: with the result when the worker could decode the reply to this very call,
   as cancelled by its own caller, and with an error when the reply could not be decoded, when the call could not be
   sent, or when the tracker is emptied while the call is in it. No other step, of any client or of the server, does.
   */
  lemma WhatCompletesAFuture(identities: map<Identity, Admission>, steps: seq<Step>, s: State, step: Step, i: Identity,
                             k: nat)
    requires Reached(identities, steps, s) && Enabled(s, step)
    requires i in s.clients && k < |s.clients[i].calls| && s.clients[i].calls[k].future == Unset
    ensures i in Apply(s, step).clients && k < |Apply(s, step).clients[i].calls|
    ensures Apply(s, step).clients[i].calls[k].future
            == if step.ClientStep? && step.i == i then Completion(s.clients[i], step.action, k) else Unset
  {
    ReachedInv(identities, steps, s);
    StepCompletes(s, step, i, k);
  }

  lemma StepCompletes(s: State, step: Step, i: Identity, k: nat)
    requires i in s.clients && k < |s.clients[i].calls| && s.clients[i].calls[k].future == Unset
    requires Inv(s) && Enabled(s, step)
    ensures i in Apply(s, step).clients && k < |Apply(s, step).clients[i].calls|
    ensures Apply(s, step).clients[i].calls[k].future
            == if step.ClientStep? && step.i == i then Completion(s.clients[i], step.action, k) else Unset
  {
    if !step.ClientStep? {
      ServerSpares(s, step, i);
    } else {
      ActStep(s, step.i, step.action);
      if step.i == i {
        ClientStepFacts(s, i, step.action);
        ActCompletes(s.clients[i], step.action, k);
      }
    }
  }

  // ----- A call that cannot be sent

  /** The thread finds the transport closed or its worker gone: at its flag test, or when queueing is refused. */
  predicate CannotBeSent(c: Client, k: nat, first: Action) {
    && Waits(c, k)
    && ((first == TestFlags(k) && c.calls[k].stage == Allocated && (c.closed || !c.running))
        || (first == Enqueue(k, false) && c.calls[k].stage == Checked))
  }

  function GivingBack(i: Identity, k: nat, first: Action): seq<Step> {
    [ClientStep(i, first), ClientStep(i, PopFailed(k)), ClientStep(i, FailFuture(k))]
  }

  lemma ThreeActs(s: State, i: Identity, a: Action, b: Action, last: Action, c1: Client, c2: Client)
    requires i in s.clients && CanAct(s.clients[i], i, s.tasks, a) && c1 == Act(s.clients[i], a)
    requires CanAct(c1, i, s.tasks, b) && c2 == Act(c1, b) && CanAct(c2, i, s.tasks, last)
    ensures var run := [ClientStep(i, a), ClientStep(i, b), ClientStep(i, last)];
            IsRun(s, run) && Last(s, run) == Acted(s, i, Act(c2, last))
  {
    ActStep(s, i, a);
    TwoActs(Acted(s, i, c1), i, b, last, c2);
    Follows(s, ClientStep(i, a), [ClientStep(i, b), ClientStep(i, last)]);
    assert [ClientStep(i, a)] + [ClientStep(i, b), ClientStep(i, last)]
           == [ClientStep(i, a), ClientStep(i, b), ClientStep(i, last)];
  }

  lemma FirstFails(c: Client, i: Identity, tasks: map<nat, Task>, k: nat, first: Action)
    requires CannotBeSent(c, k, first)
    ensures CanAct(c, i, tasks, first) && Act(c, first) == WithCall(c, k, c.calls[k].(stage := Failing))
  {}

  lemma FailingIsUndone(c: Client, i: Identity, tasks: map<nat, Task>, k: nat)
    requires Waits(c, k)
    ensures var d := WithCall(c, k, c.calls[k].(stage := Failing));
            && CanAct(d, i, tasks, PopFailed(k)) && CanAct(Act(d, PopFailed(k)), i, tasks, FailFuture(k))
            && var e := Act(Act(d, PopFailed(k)), FailFuture(k));
            && e.pending == c.pending - {c.calls[k].id}
            && e.calls == c.calls[k := c.calls[k].(stage := Returned, future := Failed)]
  {}

  /** Its entry leaves the tracker and its future, which the caller gets, holds the error; nothing else changes. */
  lemma RefusedCallFails(s: State, i: Identity, k: nat, first: Action)
    requires i in s.clients && CannotBeSent(s.clients[i], k, first)
    ensures IsRun(s, GivingBack(i, k, first))
    ensures var s' := Last(s, GivingBack(i, k, first));
            OnlyFuture(s, s', i, k, Failed) && !InTracker(s'.clients[i], k)
  {
    var c := s.clients[i];
    FirstFails(c, i, s.tasks, k, first);
    FailingIsUndone(c, i, s.tasks, k);
    var d := WithCall(c, k, c.calls[k].(stage := Failing));
    ThreeActs(s, i, first, PopFailed(k), FailFuture(k), d, Act(d, PopFailed(k)));
  }

  // ----- What else a step puts on its way

  lemma ReplayIsSent(c: Client, task: Task)
    requires task.handler.Replaying?
    ensures ProgressClient(c, task, Done).downlink == c.downlink + [ZeroId]
  {}

  lemma ReplayIsApplied(s: State, t: nat, now: Time)
    requires t in s.tasks && s.tasks[t].identity in s.clients && s.tasks[t].handler.Replaying?
    ensures var i, s' := s.tasks[t].identity, ProgressTask(s, t, Done, now);
            i in s'.clients && s'.clients[i].downlink == s.clients[i].downlink + [ZeroId]
  {
    ReplayIsSent(s.clients[s.tasks[t].identity], s.tasks[t]);
    ProgressShape(s, t, Done, now);
  }

  /** A stored event that is replayed reaches its client under id 0, behind everything sent before. */
  lemma StoredEventArrives(identities: map<Identity, Admission>, steps: seq<Step>, s: State, t: nat, now: Time)
    requires Reached(identities, steps, s) && t in s.tasks && s.tasks[t].handler.Replaying?
    ensures var i, s' := s.tasks[t].identity, ProgressTask(s, t, Done, now);
            i in s.clients && i in s'.clients && s'.clients[i].downlink == s.clients[i].downlink + [ZeroId]
  {
    ReachedInv(identities, steps, s);
    TaskOfClient(s, t);
    ReplayIsApplied(s, t, now);
  }
}
