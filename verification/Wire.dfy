/**
 Framing of requests and replies: what the client puts on the wire, what the server reads from it, and what the
 client reads back. MsgPack and UTF-8 are parameters; the big-endian integers are worked out.
 */
module Wire {

  type Byte = b: int | 0 <= b < 256
  type Bytes = seq<Byte>

  datatype Option<+T> = None | Some(value: T)

  datatype Command =
    | UNKNOWN | PING | LIST_OUTPUTS | GET_CLIP_INFO | GET_FRAME | CLOSE | SUBSCRIBE_STREAM | UNSUBSCRIBE_STREAM
    | RELOAD | LOAD_CODE | LOAD_SCRIPT | CANCEL_REQUEST | GET_STATS

  datatype StatusCode =
    | OK | ERROR | NOT_FOUND | INVALID_COMMAND | INVALID_PAYLOAD | UNAUTHORIZED | PERMISSION_DENIED

  const COMMANDS: seq<Command> :=
    [UNKNOWN, PING, LIST_OUTPUTS, GET_CLIP_INFO, GET_FRAME, CLOSE, SUBSCRIBE_STREAM, UNSUBSCRIBE_STREAM,
     RELOAD, LOAD_CODE, LOAD_SCRIPT, CANCEL_REQUEST, GET_STATS]

  const STATUS_CODES: seq<StatusCode> :=
    [OK, ERROR, NOT_FOUND, INVALID_COMMAND, INVALID_PAYLOAD, UNAUTHORIZED, PERMISSION_DENIED]

  function CommandValue(c: Command): (n: nat)
    ensures n < |COMMANDS| && COMMANDS[n] == c
  {
    match c
    case UNKNOWN => 0
    case PING => 1
    case LIST_OUTPUTS => 2
    case GET_CLIP_INFO => 3
    case GET_FRAME => 4
    case CLOSE => 5
    case SUBSCRIBE_STREAM => 6
    case UNSUBSCRIBE_STREAM => 7
    case RELOAD => 8
    case LOAD_CODE => 9
    case LOAD_SCRIPT => 10
    case CANCEL_REQUEST => 11
    case GET_STATS => 12
  }

  function StatusValue(s: StatusCode): (n: nat)
    ensures n < |STATUS_CODES| && STATUS_CODES[n] == s
  {
    match s
    case OK => 0
    case ERROR => 1
    case NOT_FOUND => 2
    case INVALID_COMMAND => 3
    case INVALID_PAYLOAD => 4
    case UNAUTHORIZED => 5
    case PERMISSION_DENIED => 6
  }

  // ----- Big-endian integers

  /** `int.from_bytes(b, "big")`, for a frame of any length. */
  function FromBytes(b: Bytes): nat {
    if b == [] then 0 else 256 * FromBytes(b[..|b| - 1]) + b[|b| - 1]
  }

  /** `n.to_bytes(size, "big")`. */
  function ToBytes(n: nat, size: nat): (b: Bytes)
    ensures |b| == size
  {
    if size == 0 then [] else ToBytes(n / 256, size - 1) + [n % 256]
  }

  function Power256(size: nat): (p: nat)
    ensures p > 0
  {
    if size == 0 then 1 else 256 * Power256(size - 1)
  }

  /** `to_bytes` loses nothing: it raises outside this range. */
  lemma {:induction false} IntegerRoundTrip(n: nat, size: nat)
    requires n < Power256(size)
    ensures FromBytes(ToBytes(n, size)) == n
  {
    if size > 0 {
      IntegerRoundTrip(n / 256, size - 1);
      assert ToBytes(n, size)[..size - 1] == ToBytes(n / 256, size - 1);
    }
  }

  /** Every frame of the right size is the encoding of exactly one number. */
  lemma {:induction false} BytesRoundTrip(b: Bytes)
    ensures FromBytes(b) < Power256(|b|)
    ensures ToBytes(FromBytes(b), |b|) == b
  {
    if b != [] {
      BytesRoundTrip(b[..|b| - 1]);
    }
  }

  lemma RequestIdSize()
    ensures Power256(4) == 0x1_0000_0000
  {}

  lemma SingleByte(v: Byte)
    ensures FromBytes([v]) == v
  {}

  // ----- Requests

  datatype Result<+T, +E> = Ok(value: T) | Err(error: E)

  datatype WireError = MalformedMessage | UnknownCommand | UnknownStatusCode | Undecodable

  datatype RequestEnvelope = RequestEnvelope(
    identity: Bytes,
    reqIdBytes: Bytes,
    reqId: nat,
    command: Command,
    payloadBytes: Bytes,
    authToken: Option<string>,
    extraFrames: seq<Bytes>)

  /** A text codec: encoding, and decoding that may fail. */
  datatype TextCodec = TextCodec(encode: string -> Bytes, decode: Bytes -> Option<string>) {
    ghost predicate Lawful() {
      forall s :: decode(encode(s)) == Some(s) && (encode(s) == [] <==> s == "")
    }
  }

  /** The frames built by `_send_message`; the DEALER socket sends them as they are. */
  function RequestFrames(reqId: nat, cmd: Command, payload: Bytes, token: Option<string>, text: TextCodec): seq<Bytes>
  {
    [ToBytes(reqId, 4), [CommandValue(cmd)], payload]
    + if token.Some? && token.value != "" then [text.encode(token.value)] else []
  }

  /** `RequestEnvelope.from_frames`: the ROUTER socket has put the identity in front. */
  function ParseRequest(frames: seq<Bytes>, text: TextCodec): Result<RequestEnvelope, WireError> {
    if |frames| < 3 then
      Err(MalformedMessage)
    else
      var payload := if |frames| > 3 then frames[3] else [];
      var extra := if |frames| > 3 then frames[4..] else [];
      var cmd := FromBytes(frames[2]);
      if cmd >= |COMMANDS| then
        Err(UnknownCommand)
      else
        var token := if extra != [] && extra[0] != [] then text.decode(extra[0]) else None;
        Ok(RequestEnvelope(frames[0], frames[1], FromBytes(frames[1]), COMMANDS[cmd], payload, token, extra))
  }

  /** What the server reads is what the client meant, for every id `to_bytes(4)` accepts and any token. */
  lemma RequestRoundTrip(identity: Bytes, reqId: nat, cmd: Command, payload: Bytes, token: Option<string>,
                         text: TextCodec)
    requires reqId < 0x1_0000_0000 && text.Lawful()
    ensures var wire := [identity] + RequestFrames(reqId, cmd, payload, token, text);
            var known := if token == Some("") then None else token;
            ParseRequest(wire, text)
            == Ok(RequestEnvelope(identity, ToBytes(reqId, 4), reqId, cmd, payload, known,
                                  if known.Some? then [text.encode(known.value)] else []))
  {
    RequestIdSize();
    IntegerRoundTrip(reqId, 4);
    SingleByte(CommandValue(cmd));
    var wire := [identity] + RequestFrames(reqId, cmd, payload, token, text);
    assert wire[2] == [CommandValue(cmd)];
    var rest := wire[4..];
    if token.Some? && token.value != "" {
      assert rest == [text.encode(token.value)];
    } else {
      assert rest == [];
    }
  }

  // ----- Replies

  /** The frames of `_send_reply`, identity first. */
  function ReplyFrames(req: RequestEnvelope, status: StatusCode, payload: Bytes, extra: seq<Bytes>): seq<Bytes> {
    [req.identity, req.reqIdBytes, [StatusValue(status)], payload] + extra
  }

  /** How the client's receive loop routes a reply, once the ROUTER socket has consumed the identity. */
  datatype Routing = Ignored | StreamEvent(payload: Bytes) | ToRequest(reqId: nat, frames: seq<Bytes>)

  function Route(parts: seq<Bytes>): Routing {
    if parts == [] then
      Ignored
    else
      var reqId := FromBytes(parts[0]);
      if reqId != 0 then ToRequest(reqId, parts[1..])
      else if |parts| >= 3 && parts[1] == [StatusValue(OK)] then StreamEvent(parts[2])
      else Ignored
  }

  datatype Payload<+T, +E> = RawPayload(bytes: Bytes) | Decoded(value: T) | Failure(error: E)

  datatype ResponseEnvelope<+T, +E> = ResponseEnvelope(
    status: StatusCode,
    payload: Payload<T, E>,
    payloadBytes: Bytes,
    extraFrames: seq<Bytes>)

  /** MsgPack decoding of error payloads, with the text used when it fails. */
  datatype ErrorCodec<!E> = ErrorCodec(unpack: Bytes -> Option<E>, fallback: (Bytes, StatusCode) -> E)

  /** `ResponseEnvelope.from_frames`; `target` is None when the raw payload is wanted. */
  function ParseResponse<T, E>(frames: seq<Bytes>, target: Option<Bytes -> Option<T>>, errors: ErrorCodec<E>)
    : Result<ResponseEnvelope<T, E>, WireError>
  {
    if frames == [] then
      Err(MalformedMessage)
    else
      var payloadBytes := if |frames| > 1 then frames[1] else [];
      var extra := if |frames| > 1 then frames[2..] else [];
      var code := FromBytes(frames[0]);
      if code >= |STATUS_CODES| then
        Err(UnknownStatusCode)
      else
        var status := STATUS_CODES[code];
        if status != OK then
          var e := errors.unpack(payloadBytes);
          var error := if e.Some? then e.value else errors.fallback(payloadBytes, status);
          Ok(ResponseEnvelope(status, Failure(error), payloadBytes, extra))
        else if target.None? then
          Ok(ResponseEnvelope(status, RawPayload(payloadBytes), payloadBytes, extra))
        else
          var v := (target.value)(payloadBytes);
          if v.None? then Err(Undecodable)
          else Ok(ResponseEnvelope(status, Decoded(v.value), payloadBytes, extra))
  }

  /**
   The whole exchange: whatever the server answers to the request it parsed, the client routes to the id it had
   used, with the same status, payload and extra frames. Decoding is the only thing that can fail, and only on an
   OK reply with a payload type to decode.
   */
  lemma ExchangeRoundTrip<T, E>(identity: Bytes, reqId: nat, cmd: Command, sent: Bytes, token: Option<string>,
                                text: TextCodec, status: StatusCode, payload: Bytes, extra: seq<Bytes>,
                                target: Option<Bytes -> Option<T>>, errors: ErrorCodec<E>)
    requires 0 < reqId < 0x1_0000_0000 && text.Lawful()
    ensures var req := ParseRequest([identity] + RequestFrames(reqId, cmd, sent, token, text), text);
            && req.Ok?
            && ReplyFrames(req.value, status, payload, extra)[0] == identity
            && var routed := Route(ReplyFrames(req.value, status, payload, extra)[1..]);
            && routed.ToRequest? && routed.reqId == reqId
            && var got := ParseResponse(routed.frames, target, errors);
            if status == OK && target.Some? && (target.value)(payload).None? then
              got == Err(Undecodable)
            else
              && got.Ok? && got.value.status == status
              && got.value.payloadBytes == payload && got.value.extraFrames == extra
              && (status == OK && target.None? ==> got.value.payload == RawPayload(payload))
              && (status == OK && target.Some? ==> Some(got.value.payload.value) == (target.value)(payload))
              && (status != OK ==>
                    got.value.payload == Failure(if errors.unpack(payload).Some? then errors.unpack(payload).value
                                                 else errors.fallback(payload, status)))
  {
    RequestRoundTrip(identity, reqId, cmd, sent, token, text);
    RequestIdSize();
    IntegerRoundTrip(reqId, 4);
    SingleByte(StatusValue(status));
    var req := ParseRequest([identity] + RequestFrames(reqId, cmd, sent, token, text), text).value;
    var parts := ReplyFrames(req, status, payload, extra)[1..];
    assert parts[0] == req.reqIdBytes;
    assert parts[1..] == [[StatusValue(status)], payload] + extra;
    assert parts[1..][2..] == extra;
  }

  /** Only traffic under id 0 with an OK status and a payload is a stream event; under any other id it is a reply. */
  lemma EventsAreRouted(parts: seq<Bytes>)
    requires parts != []
    ensures Route(parts).StreamEvent? <==> FromBytes(parts[0]) == 0 && |parts| >= 3 && parts[1] == [0]
    ensures Route(parts).StreamEvent? ==> Route(parts).payload == parts[2]
    ensures Route(parts).ToRequest? <==> FromBytes(parts[0]) != 0
  {}

  /** Four bytes are read with the most significant first. */
  lemma IdBytes(b: Bytes)
    requires |b| == 4
    ensures FromBytes(b) == b[0] as int * 0x100_0000 + b[1] as int * 0x1_0000 + b[2] as int * 0x100 + b[3]
  {
    assert b[..3][..2] == b[..2] && b[..2][..1] == b[..1] && b[..1] == [b[0]];
    SingleByte(b[0]);
    assert FromBytes(b[..2]) == 256 * FromBytes(b[..1]) + b[1];
    assert FromBytes(b[..3]) == 256 * FromBytes(b[..2]) + b[2];
    assert FromBytes(b) == 256 * FromBytes(b[..3]) + b[3];
  }

  /**
   A request the server cannot parse is still answered under its own id as long as it has an id frame
   (the error reply is built by `from_data`); with fewer frames nothing is sent.
   */
  function ErrorReplyForMalformed(msg: seq<Bytes>, payload: Bytes): Option<seq<Bytes>> {
    if |msg| < 2 then None
    else
      var req := RequestEnvelope(msg[0], msg[1], FromBytes(msg[1]), UNKNOWN, [], None, []);
      Some(ReplyFrames(req, INVALID_COMMAND, payload, []))
  }

  lemma MalformedRequestAnswered<T, E>(msg: seq<Bytes>, text: TextCodec, payload: Bytes,
                                       target: Option<Bytes -> Option<T>>, errors: ErrorCodec<E>)
    ensures ParseRequest(msg, text).Err? <==> |msg| < 3 || FromBytes(msg[2]) >= |COMMANDS|
    ensures |msg| >= 2 && FromBytes(msg[1]) != 0 ==>
              && var reply := ErrorReplyForMalformed(msg, payload);
              && reply.Some? && reply.value[0] == msg[0]
              && var routed := Route(reply.value[1..]);
              && routed.ToRequest? && routed.reqId == FromBytes(msg[1])
              && var got := ParseResponse(routed.frames, target, errors);
              got.Ok? && got.value.status == INVALID_COMMAND && got.value.payloadBytes == payload
  {
    SingleByte(StatusValue(INVALID_COMMAND));
  }
}
