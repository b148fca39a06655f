/**
 What a request is answered, status by status: over every token check, command, situation and life of the handler, each
 status is sent under exactly one condition on the request and on how its awaits ended. OK and INVALID_PAYLOAD have
 their conditions in `Handlers.OkMeansItWorked` and `Handlers.InvalidPayloadHasTwoCauses`.
 */
module Statuses {
  import opened Wire
  import opened Handlers

  // ----- How the awaits of a life ended

  /**
   `j` awaits went well, the next one raised an Exception whose text can be built, and the `n` awaits behind it went
   well again.
   */
  predicate FailedOnce(outcomes: seq<Outcome>, j: nat, n: nat) {
    && j + n < |outcomes|
    && (forall k :: 0 <= k < j ==> outcomes[k].Done?)
    && outcomes[j].Raised? && outcomes[j].kind != Escaping && outcomes[j].printable
    && (forall k :: j < k <= j + n ==> outcomes[k].Done?)
  }

  lemma AllDoneShifts(outcomes: seq<Outcome>, n: nat)
    requires outcomes != []
    ensures AllDone(outcomes, n + 1) <==> outcomes[0].Done? && AllDone(outcomes[1..], n)
  {
    var rest := outcomes[1..];
    if outcomes[0].Done? && AllDone(rest, n) {
      forall k | 0 <= k < n + 1 ensures outcomes[k].Done? {
        assert k > 0 ==> outcomes[k] == rest[k - 1];
      }
    }
  }

  lemma FailedOnceShifts(outcomes: seq<Outcome>, j: nat, n: nat)
    requires outcomes != []
    ensures FailedOnce(outcomes, j + 1, n) <==> outcomes[0].Done? && FailedOnce(outcomes[1..], j, n)
    ensures FailedOnce(outcomes, j + 1, n) ==> outcomes[j + 1] == outcomes[1..][j]
    ensures FailedOnce(outcomes, 0, n)
            <==> outcomes[0].Raised? && outcomes[0].kind != Escaping && outcomes[0].printable
                 && AllDone(outcomes[1..], n)
  {
    var rest := outcomes[1..];
    assert forall k :: 0 < k < |outcomes| ==> outcomes[k] == rest[k - 1];
    if FailedOnce(outcomes, 0, n) || FailedOnce(outcomes, j + 1, n) {
      assert forall k :: 0 <= k < |rest| ==> rest[k] == outcomes[k + 1];
    }
  }

  // ----- What each handler sends

  lemma SaidNothing(outcomes: seq<Outcome>)
    requires Life(Ended, outcomes)
    ensures outcomes == [] && Replies(Ended, outcomes) == []
  {}

  /** A reply outside any `try` is sent, or nothing is. */
  lemma PlainReply(status: StatusCode, replays: nat, outcomes: seq<Outcome>)
    requires Life(Replying(status, replays), outcomes)
    ensures Replies(Replying(status, replays), outcomes) == if AllDone(outcomes, 1) then [status] else []
  {
    if outcomes[0].Done? && replays > 0 {
      AnsweredSaysNoMore(replays, outcomes[1..]);
    } else {
      SaidNothing(outcomes[1..]);
    }
  }

  lemma FrameErrorReply(outcomes: seq<Outcome>)
    requires Life(SendingFrameError, outcomes)
    ensures Replies(SendingFrameError, outcomes) == if AllDone(outcomes, 1) then [ERROR] else []
  {
    SaidNothing(outcomes[1..]);
  }

  lemma ClipInfoReplies(outcomes: seq<Outcome>)
    requires Life(SendingClipInfo, outcomes)
    ensures Replies(SendingClipInfo, outcomes)
            == if outcomes[0].Done? then [OK]
               else if outcomes[0] == Raised(MissingKey, true) && AllDone(outcomes[1..], 1) then [NOT_FOUND]
               else if outcomes[0] == Raised(Malformed, true) && AllDone(outcomes[1..], 1) then [INVALID_PAYLOAD]
               else []
  {
    var next, rest := Resume(SendingClipInfo, outcomes[0]), outcomes[1..];
    if next.Replying? {
      PlainReply(next.status, 0, rest);
    } else {
      SaidNothing(rest);
    }
  }

  /** One of the first `n` awaits failed, what failed is a missing file if `missing`, and the next `m` went well. */
  predicate FailedAmong(outcomes: seq<Outcome>, n: nat, m: nat, missing: bool) {
    exists j: nat :: j < n && FailedOnce(outcomes, j, m) && outcomes[j].kind.MissingFile? == missing
  }

  lemma FailedAmongShifts(outcomes: seq<Outcome>, n: nat, m: nat, missing: bool)
    requires outcomes != []
    ensures outcomes[0].Done? ==>
              (FailedAmong(outcomes, n + 1, m, missing) <==> FailedAmong(outcomes[1..], n, m, missing))
    ensures outcomes[0].Raised? ==>
              (FailedAmong(outcomes, n + 1, m, missing)
               <==> outcomes[0].kind != Escaping && outcomes[0].printable && AllDone(outcomes[1..], m)
                    && outcomes[0].kind.MissingFile? == missing)
  {
    var rest := outcomes[1..];
    FailedOnceShifts(outcomes, 0, m);
    if j: nat :| j < n && FailedOnce(rest, j, m) && rest[j].kind.MissingFile? == missing {
      FailedOnceShifts(outcomes, j, m);
    }
    if j: nat :| 0 < j < n + 1 && FailedOnce(outcomes, j, m) && outcomes[j].kind.MissingFile? == missing {
      FailedOnceShifts(outcomes, j - 1, m);
    }
  }

  /** Rendering, compressing and sending a frame: `n` of the three are left. */
  function FrameStage(n: nat): Handler
    requires 1 <= n <= 3
  {
    if n == 3 then Rendering else if n == 2 then Compressing else SendingFrame
  }

  lemma {:induction false} FrameReplies(n: nat, outcomes: seq<Outcome>)
    requires 1 <= n <= 3 && Life(FrameStage(n), outcomes)
    ensures Replies(FrameStage(n), outcomes)
            == if AllDone(outcomes, n) then [OK]
               else if FailedAmong(outcomes, n, 1, true) || FailedAmong(outcomes, n, 1, false) then [ERROR]
               else []
    decreases n
  {
    var o, rest := outcomes[0], outcomes[1..];
    AllDoneShifts(outcomes, n - 1);
    FailedAmongShifts(outcomes, n - 1, 1, true);
    FailedAmongShifts(outcomes, n - 1, 1, false);
    if o.Raised? {
      if Resume(FrameStage(n), o).SendingFrameError? {
        FrameErrorReply(rest);
      } else {
        SaidNothing(rest);
      }
    } else if n == 1 {
      SaidNothing(rest);
    } else {
      FrameReplies(n - 1, rest);
    }
  }

  /** Executing a load and sending its result: `n` of the two are left. */
  function LoadStage(n: nat): Handler
    requires 1 <= n <= 2
  {
    if n == 2 then Executing else SendingResult
  }

  /** After the load has failed: the teardown, and then the error. */
  lemma LoadErrorReply(failure: StatusCode, outcomes: seq<Outcome>)
    requires Life(TearingDown(failure), outcomes)
    ensures Replies(TearingDown(failure), outcomes) == if AllDone(outcomes, 2) then [failure] else []
  {
    var rest := outcomes[1..];
    AllDoneShifts(outcomes, 1);
    if outcomes[0].Done? {
      AllDoneShifts(rest, 0);
      SaidNothing(rest[1..]);
    } else {
      SaidNothing(rest);
    }
  }

  lemma {:induction false} LoadReplies(n: nat, outcomes: seq<Outcome>)
    requires 1 <= n <= 2 && Life(LoadStage(n), outcomes)
    ensures Replies(LoadStage(n), outcomes)
            == if AllDone(outcomes, n) then [OK]
               else if FailedAmong(outcomes, n, 2, true) then [NOT_FOUND]
               else if FailedAmong(outcomes, n, 2, false) then [ERROR]
               else []
    decreases n
  {
    var o, rest := outcomes[0], outcomes[1..];
    AllDoneShifts(outcomes, n - 1);
    FailedAmongShifts(outcomes, n - 1, 2, true);
    FailedAmongShifts(outcomes, n - 1, 2, false);
    if o.Raised? {
      if Resume(LoadStage(n), o).TearingDown? {
        LoadErrorReply(Resume(LoadStage(n), o).failure, rest);
      } else {
        SaidNothing(rest);
      }
    } else if n == 1 {
      SaidNothing(rest);
    } else {
      LoadReplies(n - 1, rest);
    }
  }

  /** What a handler that has just started sends in the life `outcomes`. */
  function Said(h: Handler, outcomes: seq<Outcome>): seq<StatusCode> {
    match h
    case Replying(status, _) => if AllDone(outcomes, 1) then [status] else []
    case SendingFrameError => if AllDone(outcomes, 1) then [ERROR] else []
    case SendingClipInfo =>
      if AllDone(outcomes, 1) then [OK]
      else if |outcomes| > 1 && outcomes[0] == Raised(MissingKey, true) && outcomes[1].Done? then [NOT_FOUND]
      else if |outcomes| > 1 && outcomes[0] == Raised(Malformed, true) && outcomes[1].Done? then [INVALID_PAYLOAD]
      else []
    case Rendering =>
      if AllDone(outcomes, 3) then [OK]
      else if FailedAmong(outcomes, 3, 1, true) || FailedAmong(outcomes, 3, 1, false) then [ERROR]
      else []
    case Executing =>
      if AllDone(outcomes, 2) then [OK]
      else if FailedAmong(outcomes, 2, 2, true) then [NOT_FOUND]
      else if FailedAmong(outcomes, 2, 2, false) then [ERROR]
      else []
    case _ => []
  }

  lemma FirstHandlerSays(h: Handler, outcomes: seq<Outcome>)
    requires Life(h, outcomes)
    requires h.Replying? || h.SendingFrameError? || h.SendingClipInfo? || h.Rendering? || h.Executing? || h.Ended?
    ensures Replies(h, outcomes) == Said(h, outcomes)
  {
    match h
    case Replying(status, replays) => PlainReply(status, replays, outcomes);
    case SendingFrameError => FrameErrorReply(outcomes);
    case SendingClipInfo => ClipInfoReplies(outcomes);
    case Rendering => FrameReplies(3, outcomes);
    case Executing => LoadReplies(2, outcomes);
    case Ended => SaidNothing(outcomes);
  }

  // ----- Each status has one condition

  /** A request to load something that is not turned down at once: it goes to the executor. */
  predicate LoadsSomething(cmd: Command, s: Situation) {
    (cmd == RELOAD || ((cmd == LOAD_CODE || cmd == LOAD_SCRIPT) && s.allowEval)) && s.payload.Decoded?
  }

  /** UNAUTHORIZED: the token was rejected, whatever the command, and the reply goes out. */
  lemma UnauthorizedMeansRejected(a: Admission, cmd: Command, s: Situation, outcomes: seq<Outcome>)
    requires cmd != CANCEL_REQUEST && Life(Receive(a, cmd, s), outcomes)
    ensures Replies(Receive(a, cmd, s), outcomes) == [UNAUTHORIZED] <==> a.Rejected? && AllDone(outcomes, 1)
  {
    FirstHandlerSays(Receive(a, cmd, s), outcomes);
  }

  /** PERMISSION_DENIED: code or a script was to be loaded and the server does not allow it. */
  lemma PermissionDeniedMeansNoEval(a: Admission, cmd: Command, s: Situation, outcomes: seq<Outcome>)
    requires cmd != CANCEL_REQUEST && Life(Receive(a, cmd, s), outcomes)
    ensures Replies(Receive(a, cmd, s), outcomes) == [PERMISSION_DENIED]
            <==> a.Admitted? && (cmd == LOAD_CODE || cmd == LOAD_SCRIPT) && !s.allowEval && AllDone(outcomes, 1)
  {
    FirstHandlerSays(Receive(a, cmd, s), outcomes);
  }

  /** INVALID_COMMAND: the command is UNKNOWN. */
  lemma InvalidCommandMeansUnknown(a: Admission, cmd: Command, s: Situation, outcomes: seq<Outcome>)
    requires cmd != CANCEL_REQUEST && Life(Receive(a, cmd, s), outcomes)
    ensures Replies(Receive(a, cmd, s), outcomes) == [INVALID_COMMAND]
            <==> a.Admitted? && cmd == UNKNOWN && AllDone(outcomes, 1)
  {
    FirstHandlerSays(Receive(a, cmd, s), outcomes);
  }

  /** No output under this index when the request came in. */
  predicate OutputMissing(cmd: Command, s: Situation, outcomes: seq<Outcome>) {
    (cmd == GET_CLIP_INFO || cmd == GET_FRAME) && s.payload.Decoded? && !s.outputFound && AllDone(outcomes, 1)
  }

  /** A KeyError from the clip info, encoding or sending it, and the second attempt to answer went out. */
  predicate InfoMissing(cmd: Command, s: Situation, outcomes: seq<Outcome>) {
    && cmd == GET_CLIP_INFO && s.payload.Decoded? && s.outputFound
    && |outcomes| > 1 && outcomes[0] == Raised(MissingKey, true) && outcomes[1].Done?
  }

  /** The load, or sending its result, raised FileNotFoundError or ScriptNotLoadedError; the error reply went out. */
  predicate FileMissing(cmd: Command, s: Situation, outcomes: seq<Outcome>) {
    LoadsSomething(cmd, s) && FailedAmong(outcomes, 2, 2, true)
  }

  /** NOT_FOUND: an output, a clip info or a file is missing. */
  lemma NotFoundHasThreeCauses(a: Admission, cmd: Command, s: Situation, outcomes: seq<Outcome>)
    requires cmd != CANCEL_REQUEST && Life(Receive(a, cmd, s), outcomes)
    ensures Replies(Receive(a, cmd, s), outcomes) == [NOT_FOUND]
            <==> a.Admitted? && (OutputMissing(cmd, s, outcomes) || InfoMissing(cmd, s, outcomes)
                                 || FileMissing(cmd, s, outcomes))
  {
    FirstHandlerSays(Receive(a, cmd, s), outcomes);
  }

  /** Statistics were asked for and no environment is set. */
  predicate NoEnvironment(cmd: Command, s: Situation, outcomes: seq<Outcome>) {
    cmd == GET_STATS && !s.environmentSet && AllDone(outcomes, 1)
  }

  /** Starting to render, rendering, compressing or sending the frame raised, and the error reply went out. */
  predicate FrameFailure(cmd: Command, s: Situation, outcomes: seq<Outcome>) {
    && cmd == GET_FRAME && s.payload.Decoded? && s.outputFound
    && if s.renderStart.Raised? then
         s.renderStart.kind != Escaping && s.renderStart.printable && AllDone(outcomes, 1)
       else
         FailedAmong(outcomes, 3, 1, true) || FailedAmong(outcomes, 3, 1, false)
  }

  /** The load, or sending its result, raised any other Exception; teardown and reply succeeded. */
  predicate LoadFailure(cmd: Command, s: Situation, outcomes: seq<Outcome>) {
    LoadsSomething(cmd, s) && FailedAmong(outcomes, 2, 2, false)
  }

  /** ERROR: no environment, a frame that failed, or a load that failed for another reason than a missing file. */
  lemma ErrorHasThreeCauses(a: Admission, cmd: Command, s: Situation, outcomes: seq<Outcome>)
    requires cmd != CANCEL_REQUEST && Life(Receive(a, cmd, s), outcomes)
    ensures Replies(Receive(a, cmd, s), outcomes) == [ERROR]
            <==> a.Admitted? && (NoEnvironment(cmd, s, outcomes) || FrameFailure(cmd, s, outcomes)
                                 || LoadFailure(cmd, s, outcomes))
  {
    FirstHandlerSays(Receive(a, cmd, s), outcomes);
  }

  // ----- Stored events

  function StoredEvents(h: Handler, outcomes: seq<Outcome>): nat
    decreases outcomes
  {
    if outcomes == [] then 0
    else (if Emitted(h, outcomes[0]).StoredEvent? then 1 else 0) + StoredEvents(Resume(h, outcomes[0]), outcomes[1..])
  }

  lemma {:induction false} ReplaysGoOut(left: nat, outcomes: seq<Outcome>, m: nat)
    requires left > 0 && Life(Replaying(left), outcomes)
    ensures m <= StoredEvents(Replaying(left), outcomes) <==> m <= left && AllDone(outcomes, m)
    decreases left
  {
    var rest := outcomes[1..];
    if m > 0 {
      AllDoneShifts(outcomes, m - 1);
      if outcomes[0].Done? && left > 1 {
        ReplaysGoOut(left - 1, rest, m - 1);
      }
    }
  }

  /** No other handler sends one. */
  lemma {:induction false} NoStoredEvents(h: Handler, outcomes: seq<Outcome>)
    requires Life(h, outcomes) && !h.Replaying? && (h.Replying? ==> h.replays == 0)
    ensures StoredEvents(h, outcomes) == 0
    decreases outcomes
  {
    if outcomes != [] {
      NoStoredEvents(Resume(h, outcomes[0]), outcomes[1..]);
    }
  }

  /** The `m`-th stored event goes out exactly to a new subscriber, behind its reply and the events before. */
  lemma SubscribersGetStoredEvents(a: Admission, cmd: Command, s: Situation, outcomes: seq<Outcome>, m: nat)
    requires m > 0 && Life(Receive(a, cmd, s), outcomes)
    ensures m <= StoredEvents(Receive(a, cmd, s), outcomes)
            <==> a.Admitted? && cmd == SUBSCRIBE_STREAM && s.payload.Decoded? && m <= s.replays
                 && AllDone(outcomes, m + 1)
  {
    var h := Receive(a, cmd, s);
    if h.Replying? && h.replays > 0 {
      AllDoneShifts(outcomes, m);
      if outcomes[0].Done? {
        ReplaysGoOut(h.replays, outcomes[1..], m);
      } else {
        NoStoredEvents(Ended, outcomes[1..]);
      }
    } else {
      NoStoredEvents(h, outcomes);
    }
  }
}
