/**
 One request handler of the server: the token check of `_handle_request`, `_dispatch_request`, `_handle_get_frame` and
 `_dispatch_executor`. A `Handler` says which await the coroutine is suspended at; between two awaits it runs without
 interruption. An attempt to send includes encoding what is sent.
 */
module Handlers {
  import opened Wire

  /**
   What the `except` clauses tell apart: FileNotFoundError and ScriptNotLoadedError, KeyError, MsgspecError and
   TypeError, any other Exception, and what is not an Exception and passes them all.
   */
  datatype Kind = MissingFile | MissingKey | Malformed | Unlisted | Escaping

  /**
   How an awaited operation ended, together with the code up to the next await inside the same `try`; an exception is
   printable when the text the server wants of it can be built.
   */
  datatype Outcome = Done | Raised(kind: Kind, printable: bool)

  datatype Handler =
    | Replying(status: StatusCode, replays: nat) // a reply whose failure ends the handler
    | Replaying(left: nat)                       // SUBSCRIBE_STREAM, sending stored events
    | SendingClipInfo                            // GET_CLIP_INFO, inside its try
    | Rendering
    | Compressing
    | SendingFrame
    | SendingFrameError                          // in `except Exception` of _handle_get_frame
    | Executing
    | SendingResult
    | TearingDown(failure: StatusCode)           // a load failed: teardown_environment in the executor
    | SendingLoadError(failure: StatusCode)
    | Ended

  /** What a step puts on the socket: a reply under the request's id, an event under id 0, or nothing. */
  datatype Emission = Nothing | ReplyWith(status: StatusCode) | StoredEvent

  datatype Decoding = Decoded | Invalid | DecodingRaised // `DecodingRaised`: something no clause names

  /** What the synchronous part of the dispatch finds out before the first await. */
  datatype Situation = Situation(
    payload: Decoding,
    environmentSet: bool,
    statsRaise: bool,      // `use` or `snapshot` in GET_STATS
    outputFound: bool,
    renderStart: Outcome,  // `use` and `get_frame_async` in GET_FRAME
    allowEval: bool,
    replays: nat)

  // ----- Admission

  datatype Admission = Admitted | Rejected | CheckRaised

  predicate Ascii(text: string) {
    forall c | c in text :: c < 128 as char
  }

  /** `compare_digest` refuses text that is not ASCII, on either side, by raising. */
  function CheckToken(server: Option<string>, client: Option<string>): Admission {
    if server.None? then Admitted
    else if client.None? || client.value == "" then Rejected
    else if !Ascii(client.value) || !Ascii(server.value) then CheckRaised
    else if client == server then Admitted
    else Rejected
  }

  /** The first await of a request; `Ended` when an exception leaves the handler before it. */
  function Receive(a: Admission, cmd: Command, s: Situation): Handler {
    match a
    case Admitted => Dispatch(cmd, s)
    case Rejected => Replying(UNAUTHORIZED, 0)
    case CheckRaised => Ended
  }

  /** A cancel request has no await and runs through. */
  function Dispatch(cmd: Command, s: Situation): Handler {
    match cmd
    case GET_STATS =>
      if !s.environmentSet then Replying(ERROR, 0) else if s.statsRaise then Ended else Replying(OK, 0)
    case PING => Replying(OK, 0)
    case LIST_OUTPUTS => Replying(OK, 0)
    case GET_CLIP_INFO =>
      WithPayload(s.payload, if s.outputFound then SendingClipInfo else Replying(NOT_FOUND, 0))
    case GET_FRAME =>
      WithPayload(s.payload,
                  if !s.outputFound then Replying(NOT_FOUND, 0)
                  else if s.renderStart.Raised? then FrameFailed(s.renderStart)
                  else Rendering)
    case SUBSCRIBE_STREAM => WithPayload(s.payload, Replying(OK, s.replays))
    case UNSUBSCRIBE_STREAM => Replying(OK, 0)
    case CLOSE => Replying(OK, 0)
    case RELOAD => WithPayload(s.payload, Executing)
    case LOAD_CODE => if s.allowEval then WithPayload(s.payload, Executing) else Replying(PERMISSION_DENIED, 0)
    case LOAD_SCRIPT => if s.allowEval then WithPayload(s.payload, Executing) else Replying(PERMISSION_DENIED, 0)
    case CANCEL_REQUEST => Ended
    case UNKNOWN => Replying(INVALID_COMMAND, 0)
  }

  function WithPayload(payload: Decoding, next: Handler): Handler {
    match payload
    case Decoded => next
    case Invalid => Replying(INVALID_PAYLOAD, 0)
    case DecodingRaised => Ended
  }

  /** `except Exception`, and then the text of the exception is put into the answer. */
  predicate Described(o: Outcome)
    requires o.Raised?
  {
    !o.kind.Escaping? && o.printable
  }

  function FrameFailed(o: Outcome): Handler
    requires o.Raised?
  {
    if Described(o) then SendingFrameError else Ended
  }

  /** `_build_error_payload` comes before the teardown. */
  function LoadFailed(o: Outcome): Handler
    requires o.Raised?
  {
    if Described(o) then TearingDown(if o.kind.MissingFile? then NOT_FOUND else ERROR) else Ended
  }

  function ClipInfoFailed(o: Outcome): Handler
    requires o.Raised?
  {
    if !o.printable then Ended
    else
      match o.kind
      case MissingKey => Replying(NOT_FOUND, 0)
      case Malformed => Replying(INVALID_PAYLOAD, 0)
      case _ => Ended
  }

  // ----- From await to await

  /** The handler runs from the end of one await to the next one. */
  function Resume(h: Handler, o: Outcome): Handler {
    match h
    case Replying(_, n) => if o.Done? && n > 0 then Replaying(n) else Ended
    case Replaying(n) => if o.Done? && n > 1 then Replaying(n - 1) else Ended
    case SendingClipInfo => if o.Done? then Ended else ClipInfoFailed(o)
    case Rendering => if o.Done? then Compressing else FrameFailed(o)
    case Compressing => if o.Done? then SendingFrame else FrameFailed(o)
    case SendingFrame => if o.Done? then Ended else FrameFailed(o)
    case SendingFrameError => Ended
    case Executing => if o.Done? then SendingResult else LoadFailed(o)
    case SendingResult => if o.Done? then Ended else LoadFailed(o)
    case TearingDown(s) => if o.Done? then SendingLoadError(s) else Ended
    case SendingLoadError(_) => Ended
    case Ended => Ended
  }

  /** A send that raises puts nothing on the socket. */
  function Emitted(h: Handler, o: Outcome): Emission {
    if o.Raised? then Nothing
    else
      match h
      case Replying(s, _) => ReplyWith(s)
      case Replaying(_) => StoredEvent
      case SendingClipInfo => ReplyWith(OK)
      case SendingFrame => ReplyWith(OK)
      case SendingFrameError => ReplyWith(ERROR)
      case SendingResult => ReplyWith(OK)
      case SendingLoadError(s) => ReplyWith(s)
      case _ => Nothing
  }

  /** Whether the request has been answered, as the handler's position tells. */
  predicate Answered(h: Handler) {
    h.Replaying?
  }

  /** The exception is the last thing that happens to the request: no clause answers it, or the clause raises too. */
  predicate CutShort(h: Handler, o: Outcome) {
    && o.Raised?
    && match h
       case Replaying(_) => false
       case Ended => false
       case SendingClipInfo => !o.printable || !(o.kind.MissingKey? || o.kind.Malformed?)
       case Rendering => !Described(o)
       case Compressing => !Described(o)
       case SendingFrame => !Described(o)
       case Executing => !Described(o)
       case SendingResult => !Described(o)
       case _ => true
  }

  // ----- Whole lives

  /** A life: how each await of the handler ended, up to the end of the coroutine. */
  predicate Life(h: Handler, outcomes: seq<Outcome>)
    decreases outcomes
  {
    if outcomes == [] then h.Ended?
    else !h.Ended? && Life(Resume(h, outcomes[0]), outcomes[1..])
  }

  function Replies(h: Handler, outcomes: seq<Outcome>): seq<StatusCode>
    decreases outcomes
  {
    if outcomes == [] then []
    else
      var e := Emitted(h, outcomes[0]);
      (if e.ReplyWith? then [e.status] else []) + Replies(Resume(h, outcomes[0]), outcomes[1..])
  }

  /** The life was cut short at some await. */
  predicate GivesUp(h: Handler, outcomes: seq<Outcome>)
    decreases outcomes
  {
    outcomes != [] && (CutShort(h, outcomes[0]) || GivesUp(Resume(h, outcomes[0]), outcomes[1..]))
  }

  predicate Sends(h: Handler) {
    h.Replying? || h.SendingClipInfo? || h.SendingFrame? || h.SendingFrameError? || h.SendingResult?
    || h.SendingLoadError?
  }

  /** A send raised at some await of this life. */
  predicate SendRaised(h: Handler, outcomes: seq<Outcome>)
    decreases outcomes
  {
    outcomes != []
    && ((outcomes[0].Raised? && Sends(h)) || SendRaised(Resume(h, outcomes[0]), outcomes[1..]))
  }

  predicate TeardownRaised(h: Handler, outcomes: seq<Outcome>)
    decreases outcomes
  {
    outcomes != []
    && ((outcomes[0].Raised? && h.TearingDown?) || TeardownRaised(Resume(h, outcomes[0]), outcomes[1..]))
  }

  /** Some awaited operation raised what passes `except Exception`, or what cannot be put into words. */
  predicate Undescribed(outcomes: seq<Outcome>) {
    exists k :: 0 <= k < |outcomes| && outcomes[k].Raised? && !Described(outcomes[k])
  }

  lemma {:induction false} AnsweredSaysNoMore(n: nat, outcomes: seq<Outcome>)
    requires n > 0 && Life(Replaying(n), outcomes)
    ensures Replies(Replaying(n), outcomes) == [] && !GivesUp(Replaying(n), outcomes)
    decreases outcomes
  {
    var next := Resume(Replaying(n), outcomes[0]);
    if next.Replaying? {
      AnsweredSaysNoMore(next.left, outcomes[1..]);
    }
  }

  /** A handler that runs replies at most once, and exactly once unless it is cut short. */
  lemma {:induction false} AtMostOneReply(h: Handler, outcomes: seq<Outcome>)
    requires Life(h, outcomes) && !Answered(h) && !h.Ended?
    ensures |Replies(h, outcomes)| == if GivesUp(h, outcomes) then 0 else 1
    decreases outcomes
  {
    var next := Resume(h, outcomes[0]);
    if next.Replaying? {
      AnsweredSaysNoMore(next.left, outcomes[1..]);
    } else if !next.Ended? {
      AtMostOneReply(next, outcomes[1..]);
    }
  }

  /** A send or the teardown after a failed load raised, or an exception escaped or could not be described. */
  lemma {:induction false} GivingUpHasACause(h: Handler, outcomes: seq<Outcome>)
    requires Life(h, outcomes) && GivesUp(h, outcomes)
    ensures SendRaised(h, outcomes) || TeardownRaised(h, outcomes) || Undescribed(outcomes)
    decreases outcomes
  {
    if !CutShort(h, outcomes[0]) {
      GivingUpHasACause(Resume(h, outcomes[0]), outcomes[1..]);
      var rest := outcomes[1..];
      if k :| 0 <= k < |rest| && rest[k].Raised? && !Described(rest[k]) {
        assert outcomes[k + 1] == rest[k];
      }
    }
  }

  /** Before the first await an exception leaves the handler of this request. */
  predicate LostAtOnce(a: Admission, cmd: Command, s: Situation) {
    match a
    case CheckRaised => true
    case Rejected => false
    case Admitted =>
      match cmd
      case GET_STATS => s.environmentSet && s.statsRaise
      case GET_CLIP_INFO => s.payload.DecodingRaised?
      case GET_FRAME =>
        || s.payload.DecodingRaised?
        || (s.payload.Decoded? && s.outputFound && s.renderStart.Raised? && !Described(s.renderStart))
      case SUBSCRIBE_STREAM => s.payload.DecodingRaised?
      case RELOAD => s.payload.DecodingRaised?
      case LOAD_CODE => s.allowEval && s.payload.DecodingRaised?
      case LOAD_SCRIPT => s.allowEval && s.payload.DecodingRaised?
      case _ => false
  }

  /**
   For every token check and command: never two replies, and one exactly when no exception left the handler before its
   first await and no await cut it short. Every missing reply has one of the causes named above.
   */
  lemma OneReplyPerRequest(a: Admission, cmd: Command, s: Situation, outcomes: seq<Outcome>)
    requires cmd != CANCEL_REQUEST && Life(Receive(a, cmd, s), outcomes)
    ensures var h := Receive(a, cmd, s);
            && |Replies(h, outcomes)| <= 1
            && (|Replies(h, outcomes)| == 1 <==> !LostAtOnce(a, cmd, s) && !GivesUp(h, outcomes))
            && (|Replies(h, outcomes)| == 0 ==>
                  LostAtOnce(a, cmd, s) || SendRaised(h, outcomes) || TeardownRaised(h, outcomes)
                  || Undescribed(outcomes))
  {
    var h := Receive(a, cmd, s);
    EndedAtOnce(a, cmd, s);
    if !h.Ended? {
      AtMostOneReply(h, outcomes);
      if GivesUp(h, outcomes) {
        GivingUpHasACause(h, outcomes);
      }
    }
  }

  lemma EndedAtOnce(a: Admission, cmd: Command, s: Situation)
    requires cmd != CANCEL_REQUEST
    ensures Receive(a, cmd, s).Ended? <==> LostAtOnce(a, cmd, s)
    ensures !Answered(Receive(a, cmd, s))
  {}

  lemma LifeUnfolds(h: Handler, o: Outcome, rest: seq<Outcome>)
    requires !h.Ended?
    ensures Life(h, [o] + rest) <==> Life(Resume(h, o), rest)
    ensures Replies(h, [o] + rest)
            == (if Emitted(h, o).ReplyWith? then [Emitted(h, o).status] else []) + Replies(Resume(h, o), rest)
  {
    assert ([o] + rest)[1..] == rest;
  }

  // ----- When the reply is OK

  /** The request is turned down, or lost, before anything is awaited. */
  predicate Refused(cmd: Command, s: Situation) {
    match cmd
    case UNKNOWN => true
    case GET_STATS => !s.environmentSet || s.statsRaise
    case GET_CLIP_INFO => !s.payload.Decoded? || !s.outputFound
    case GET_FRAME => !s.payload.Decoded? || !s.outputFound || s.renderStart.Raised?
    case SUBSCRIBE_STREAM => !s.payload.Decoded?
    case RELOAD => !s.payload.Decoded?
    case LOAD_CODE => !s.allowEval || !s.payload.Decoded?
    case LOAD_SCRIPT => !s.allowEval || !s.payload.Decoded?
    case _ => false
  }

  /** What has to succeed, the reply included: rendering and compressing a frame, or executing a load. */
  function Needed(cmd: Command): nat {
    match cmd
    case GET_FRAME => 3
    case RELOAD => 2
    case LOAD_CODE => 2
    case LOAD_SCRIPT => 2
    case _ => 1
  }

  predicate AllDone(outcomes: seq<Outcome>, n: nat) {
    n <= |outcomes| && forall k :: 0 <= k < n ==> outcomes[k].Done?
  }

  /** The reply is OK exactly when the request was admitted and not refused and everything it needs succeeded. */
  lemma OkMeansItWorked(a: Admission, cmd: Command, s: Situation, outcomes: seq<Outcome>)
    requires cmd != CANCEL_REQUEST && Life(Receive(a, cmd, s), outcomes)
    ensures Replies(Receive(a, cmd, s), outcomes) == [OK]
            <==> a.Admitted? && !Refused(cmd, s) && AllDone(outcomes, Needed(cmd))
  {
    var h := Receive(a, cmd, s);
    if a.Admitted? && !Refused(cmd, s) {
      OkAfter(h, outcomes, Needed(cmd));
    } else {
      RefusalIsNotOk(h, outcomes);
      assert OK in [OK];
    }
  }

  /** A handler that answers something else than OK never answers OK. */
  predicate Unhappy(h: Handler) {
    || (h.Replying? && h.status != OK) || h.SendingFrameError? || h.Ended?
    || (h.TearingDown? && h.failure != OK) || (h.SendingLoadError? && h.failure != OK)
  }

  lemma {:induction false} RefusalIsNotOk(h: Handler, outcomes: seq<Outcome>)
    requires Unhappy(h) && Life(h, outcomes) && (h.Replying? ==> h.replays == 0)
    ensures OK !in Replies(h, outcomes)
    decreases outcomes
  {
    if outcomes != [] {
      RefusalIsNotOk(Resume(h, outcomes[0]), outcomes[1..]);
    }
  }

  /** How many awaits are left up to an OK reply, this one included. */
  predicate OnTheWay(h: Handler, n: nat) {
    match h
    case Replying(status, _) => status == OK && n == 1
    case SendingClipInfo => n == 1
    case Rendering => n == 3
    case Compressing => n == 2
    case SendingFrame => n == 1
    case Executing => n == 2
    case SendingResult => n == 1
    case _ => false
  }

  lemma {:induction false} OkAfter(h: Handler, outcomes: seq<Outcome>, n: nat)
    requires OnTheWay(h, n) && Life(h, outcomes)
    ensures Replies(h, outcomes) == [OK] <==> AllDone(outcomes, n)
    decreases outcomes
  {
    var next, rest := Resume(h, outcomes[0]), outcomes[1..];
    if outcomes[0].Raised? {
      RefusalIsNotOk(next, rest);
      assert Replies(h, outcomes) == Replies(next, rest) && OK in [OK];
    } else if n == 1 {
      if next.Replaying? {
        AnsweredSaysNoMore(next.left, rest);
      }
    } else {
      OkAfter(next, rest, n - 1);
      assert AllDone(outcomes, n) <==> AllDone(rest, n - 1) by {
        assert forall k :: 0 < k < |outcomes| ==> outcomes[k] == rest[k - 1];
      }
    }
  }

  // ----- When the payload is blamed

  predicate ReadsPayload(cmd: Command, s: Situation) {
    match cmd
    case GET_CLIP_INFO => true
    case GET_FRAME => true
    case SUBSCRIBE_STREAM => true
    case RELOAD => true
    case LOAD_CODE => s.allowEval
    case LOAD_SCRIPT => s.allowEval
    case _ => false
  }

  /** The payload could not be decoded, and the client is told so. */
  predicate PayloadWasBad(cmd: Command, s: Situation, outcomes: seq<Outcome>) {
    ReadsPayload(cmd, s) && s.payload.Invalid? && AllDone(outcomes, 1)
  }

  /** Encoding or sending a clip info raised a TypeError or MsgspecError, and the second attempt to answer went out. */
  predicate InfoWasBad(cmd: Command, s: Situation, outcomes: seq<Outcome>) {
    && cmd == GET_CLIP_INFO && s.payload.Decoded? && s.outputFound
    && |outcomes| > 1 && outcomes[0] == Raised(Malformed, true) && outcomes[1].Done?
  }

  /** A handler that never answers INVALID_PAYLOAD. */
  predicate Uncritical(h: Handler) {
    match h
    case Replying(status, _) => status != INVALID_PAYLOAD
    case SendingClipInfo => false
    case TearingDown(failure) => failure != INVALID_PAYLOAD
    case SendingLoadError(failure) => failure != INVALID_PAYLOAD
    case _ => true
  }

  lemma {:induction false} UncriticalStaysSo(h: Handler, outcomes: seq<Outcome>)
    requires Uncritical(h) && Life(h, outcomes)
    ensures INVALID_PAYLOAD !in Replies(h, outcomes)
    decreases outcomes
  {
    if outcomes != [] {
      UncriticalStaysSo(Resume(h, outcomes[0]), outcomes[1..]);
    }
  }

  lemma BlamingReply(outcomes: seq<Outcome>)
    requires Life(Replying(INVALID_PAYLOAD, 0), outcomes)
    ensures Replies(Replying(INVALID_PAYLOAD, 0), outcomes) == [INVALID_PAYLOAD] <==> AllDone(outcomes, 1)
  {
    assert Replies(Ended, outcomes[1..]) == [];
  }

  lemma ClipInfoReply(outcomes: seq<Outcome>)
    requires Life(SendingClipInfo, outcomes)
    ensures Replies(SendingClipInfo, outcomes) == [INVALID_PAYLOAD]
            <==> |outcomes| > 1 && outcomes[0] == Raised(Malformed, true) && outcomes[1].Done?
  {
    var next, rest := Resume(SendingClipInfo, outcomes[0]), outcomes[1..];
    if outcomes[0] == Raised(Malformed, true) {
      BlamingReply(rest);
      assert Replies(SendingClipInfo, outcomes) == Replies(next, rest);
    } else {
      UncriticalStaysSo(next, rest);
      assert INVALID_PAYLOAD in [INVALID_PAYLOAD];
    }
  }

  /** INVALID_PAYLOAD is answered exactly when the payload could not be decoded, or the server's clip info failed. */
  lemma InvalidPayloadHasTwoCauses(a: Admission, cmd: Command, s: Situation, outcomes: seq<Outcome>)
    requires cmd != CANCEL_REQUEST && Life(Receive(a, cmd, s), outcomes)
    ensures Replies(Receive(a, cmd, s), outcomes) == [INVALID_PAYLOAD]
            <==> a.Admitted? && (PayloadWasBad(cmd, s, outcomes) || InfoWasBad(cmd, s, outcomes))
  {
    var h := Receive(a, cmd, s);
    if h == Replying(INVALID_PAYLOAD, 0) {
      BlamingReply(outcomes);
    } else if h.SendingClipInfo? {
      ClipInfoReply(outcomes);
    } else {
      UncriticalStaysSo(h, outcomes);
      assert INVALID_PAYLOAD in [INVALID_PAYLOAD];
    }
  }

  // ----- Requests that get no reply although nobody cancelled them and no send failed

  /** A client whose token is not ASCII is never told that it is not welcome. */
  lemma NonAsciiTokenGetsNoReply(server: string, client: string, cmd: Command, s: Situation)
    requires !Ascii(client)
    ensures var h := Receive(CheckToken(Some(server), Some(client)), cmd, s);
            Life(h, []) && Replies(h, []) == []
  {}

  /** A server whose own token is not ASCII answers no request that carries a token, the right one included. */
  lemma NonAsciiServerRepliesToNoToken(server: string, client: string, cmd: Command, s: Situation)
    requires !Ascii(server) && client != ""
    ensures var h := Receive(CheckToken(Some(server), Some(client)), cmd, s);
            Life(h, []) && Replies(h, []) == []
  {}

  /** In ASCII the check does not raise, and it admits exactly the right token. */
  lemma AsciiTokensAreCompared(server: string, client: Option<string>)
    requires Ascii(server) && (client.Some? ==> Ascii(client.value))
    ensures var a := CheckToken(Some(server), client);
            !a.CheckRaised? && (a.Admitted? <==> server != "" && client == Some(server))
  {}

  /** A server with a token turns down who sends none, and a server without one admits any token, ASCII or not. */
  lemma MissingTokensAreNotCompared(server: Option<string>, client: Option<string>)
    ensures server == None ==> CheckToken(server, client) == Admitted
    ensures server != None && (client == None || client == Some("")) ==> CheckToken(server, client) == Rejected
  {}

  /** GET_STATS guards only the look-up of the environment. */
  lemma StatsCanEndSilently(s: Situation)
    requires s.environmentSet && s.statsRaise
    ensures Life(Dispatch(GET_STATS, s), []) && Replies(Dispatch(GET_STATS, s), []) == []
  {}

  /** Loaded code, or a frame, raised an exception without a text: no teardown and no reply follow. */
  lemma UnprintableErrorsAreNotReported(s: Situation, kind: Kind)
    requires s.payload.Decoded? && s.outputFound && s.renderStart.Done?
    ensures var life := [Raised(kind, false)];
            && Life(Dispatch(RELOAD, s), life) && Replies(Dispatch(RELOAD, s), life) == []
            && Life(Dispatch(GET_FRAME, s), life) && Replies(Dispatch(GET_FRAME, s), life) == []
  {
    var life := [Raised(kind, false)];
    assert life[1..] == [];
  }

  /** The load raised and so did the teardown. */
  lemma TeardownCanSilenceAReply(s: Situation)
    requires s.payload.Decoded?
    ensures var life := [Raised(Unlisted, true), Raised(Unlisted, true)];
            Life(Dispatch(RELOAD, s), life) && !SendRaised(Dispatch(RELOAD, s), life)
            && Replies(Dispatch(RELOAD, s), life) == []
  {
    var life := [Raised(Unlisted, true), Raised(Unlisted, true)];
    assert life[1..] == [Raised(Unlisted, true)] && life[1..][1..] == [];
  }

  /**
   The second cause happens with a payload that is fine: `set_output` keeps an instance of any subclass of `str` as the
   name of an output, so an encoder that refuses such an instance raises a TypeError for its clip info.
   */
  lemma ClipInfoBlamesThePayload(s: Situation)
    requires s.payload.Decoded? && s.outputFound
    ensures var life := [Raised(Malformed, true), Done];
            Life(Dispatch(GET_CLIP_INFO, s), life) && Replies(Dispatch(GET_CLIP_INFO, s), life) == [INVALID_PAYLOAD]
  {
    var life := [Raised(Malformed, true), Done];
    assert life[1..] == [Done] && life[1..][1..] == [];
  }
}
