/**
 The `pipe` command's loop: frames are requested ahead in one contiguous block and written in order.
 The server's answer to a frame request does not depend on when it was issued.
 */
module Pipe {
  import opened Wire

  /** Y4M frame tag: the bytes of "FRAME\n". */
  const FRAME_TAG: Bytes := [70, 82, 65, 77, 69, 10]

  datatype Reply = Planes(parts: seq<Bytes>) | ErrorStatus

  /** What one run does: the bytes written, and the frame whose status raised, if any. */
  datatype Outcome = Outcome(written: Bytes, failedAt: Option<nat>)

  function Decoded(parts: seq<Bytes>, decode: Bytes -> Bytes): Bytes {
    if parts == [] then [] else Decoded(parts[..|parts| - 1], decode) + decode(parts[|parts| - 1])
  }

  function FrameBytes(y4m: bool, parts: seq<Bytes>, decode: Bytes -> Bytes): Bytes {
    (if y4m then FRAME_TAG else []) + Decoded(parts, decode)
  }

  /** The simple program: request frame `n`, wait, write it, go on with the next. */
  function OneByOne(n: nat, numFrames: nat, y4m: bool, written: Bytes, frames: nat -> Reply, decode: Bytes -> Bytes)
    : Outcome
    decreases numFrames - n
  {
    if n >= numFrames then Outcome(written, None)
    else if frames(n).ErrorStatus? then Outcome(written, Some(n))
    else OneByOne(n + 1, numFrames, y4m, written + FrameBytes(y4m, frames(n).parts, decode), frames, decode)
  }

  /** The frames `lo`..`hi`-1, one behind the other. */
  function Written(lo: nat, hi: nat, y4m: bool, frames: nat -> Reply, decode: Bytes -> Bytes): Bytes
    requires lo <= hi && forall k | lo <= k < hi :: frames(k).Planes?
    decreases hi - lo
  {
    if lo == hi then [] else FrameBytes(y4m, frames(lo).parts, decode) + Written(lo + 1, hi, y4m, frames, decode)
  }

  /** It stops at the first frame with an error status; everything before that frame has been written. */
  lemma {:induction false} OneByOneStops(n: nat, numFrames: nat, y4m: bool, written: Bytes, frames: nat -> Reply,
                                         decode: Bytes -> Bytes)
    requires n <= numFrames
    ensures var result := OneByOne(n, numFrames, y4m, written, frames, decode);
            var end := if result.failedAt.Some? then result.failedAt.value else numFrames;
            && n <= end <= numFrames
            && (result.failedAt.Some? ==> end < numFrames && frames(end).ErrorStatus?)
            && (forall k | n <= k < end :: frames(k).Planes?)
            && result.written == written + Written(n, end, y4m, frames, decode)
    decreases numFrames - n
  {
    if n < numFrames && frames(n).Planes? {
      var frame := FrameBytes(y4m, frames(n).parts, decode);
      OneByOneStops(n + 1, numFrames, y4m, written + frame, frames, decode);
      var result := OneByOne(n, numFrames, y4m, written, frames, decode);
      var end := if result.failedAt.Some? then result.failedAt.value else numFrames;
      assert written + frame + Written(n + 1, end, y4m, frames, decode)
             == written + (frame + Written(n + 1, end, y4m, frames, decode));
    }
  }

  // ----- Which bytes stand where

  /** How long the first `m` planes are once decompressed. */
  function PlanesLength(parts: seq<Bytes>, m: nat, decode: Bytes -> Bytes): nat
    requires m <= |parts|
  {
    if m == 0 then 0 else PlanesLength(parts, m - 1, decode) + |decode(parts[m - 1])|
  }

  /** How long a frame is: six bytes of tag with Y4M, and its planes. */
  function FrameLength(y4m: bool, parts: seq<Bytes>, decode: Bytes -> Bytes): nat {
    (if y4m then 6 else 0) + PlanesLength(parts, |parts|, decode)
  }

  /** How long the frames `lo`..`hi`-1 are together. */
  function FramesLength(lo: nat, hi: nat, y4m: bool, frames: nat -> Reply, decode: Bytes -> Bytes): nat
    requires lo <= hi && forall k | lo <= k < hi :: frames(k).Planes?
    decreases hi - lo
  {
    if lo == hi then 0
    else FrameLength(y4m, frames(lo).parts, decode) + FramesLength(lo + 1, hi, y4m, frames, decode)
  }

  /** `piece` stands in `out` from position `at` on. */
  predicate StandsAt(out: Bytes, at: nat, piece: Bytes) {
    at + |piece| <= |out| && forall j | 0 <= j < |piece| :: out[at + j] == piece[j]
  }

  lemma StandsBehind(a: Bytes, b: Bytes, at: nat, piece: Bytes)
    requires StandsAt(b, at, piece)
    ensures StandsAt(a + b, |a| + at, piece)
  {
    forall j | 0 <= j < |piece| ensures (a + b)[|a| + at + j] == piece[j] {
      assert (a + b)[|a| + (at + j)] == b[at + j];
    }
  }

  lemma StandsBefore(a: Bytes, b: Bytes, at: nat, piece: Bytes)
    requires StandsAt(a, at, piece)
    ensures StandsAt(a + b, at, piece)
  {}

  lemma {:induction false} LengthOfInit(parts: seq<Bytes>, init: seq<Bytes>, m: nat, decode: Bytes -> Bytes)
    requires init <= parts && m <= |init|
    ensures PlanesLength(init, m, decode) == PlanesLength(parts, m, decode)
  {
    if m > 0 {
      LengthOfInit(parts, init, m - 1, decode);
    }
  }

  lemma {:induction false} DecodedLength(parts: seq<Bytes>, decode: Bytes -> Bytes)
    ensures |Decoded(parts, decode)| == PlanesLength(parts, |parts|, decode)
    decreases |parts|
  {
    if parts != [] {
      var init := parts[..|parts| - 1];
      DecodedLength(init, decode);
      LengthOfInit(parts, init, |init|, decode);
    }
  }

  lemma {:induction false} PlaneStands(parts: seq<Bytes>, p: nat, decode: Bytes -> Bytes)
    requires p < |parts|
    ensures StandsAt(Decoded(parts, decode), PlanesLength(parts, p, decode), decode(parts[p]))
    decreases |parts|
  {
    var init, last := parts[..|parts| - 1], decode(parts[|parts| - 1]);
    LengthOfInit(parts, init, if p < |init| then p else |init|, decode);
    if p == |init| {
      DecodedLength(init, decode);
      StandsBehind(Decoded(init, decode), last, 0, last);
    } else {
      PlaneStands(init, p, decode);
      StandsBefore(Decoded(init, decode), last, PlanesLength(parts, p, decode), decode(parts[p]));
    }
  }

  /** The bytes of "FRAME\n" first, if at all, and then every plane, decompressed. */
  lemma FrameStands(y4m: bool, parts: seq<Bytes>, p: nat, decode: Bytes -> Bytes)
    requires p <= |parts|
    ensures var frame := FrameBytes(y4m, parts, decode);
            && |frame| == FrameLength(y4m, parts, decode)
            && (y4m ==> StandsAt(frame, 0, [70, 82, 65, 77, 69, 10]))
            && (p < |parts| ==>
                  StandsAt(frame, (if y4m then 6 else 0) + PlanesLength(parts, p, decode), decode(parts[p])))
  {
    DecodedLength(parts, decode);
    if p < |parts| {
      PlaneStands(parts, p, decode);
      StandsBehind(if y4m then FRAME_TAG else [], Decoded(parts, decode), PlanesLength(parts, p, decode),
                   decode(parts[p]));
    }
  }

  /** Where plane `p` starts within its frame: behind the tag, if any, and the planes before it. */
  function PlaneStart(y4m: bool, parts: seq<Bytes>, p: nat, decode: Bytes -> Bytes): nat
    requires p <= |parts|
  {
    (if y4m then 6 else 0) + PlanesLength(parts, p, decode)
  }

  lemma PlaneInFrame(y4m: bool, parts: seq<Bytes>, p: nat, decode: Bytes -> Bytes)
    requires p < |parts|
    ensures StandsAt(FrameBytes(y4m, parts, decode), PlaneStart(y4m, parts, p, decode), decode(parts[p]))
  {
    FrameStands(y4m, parts, p, decode);
  }

  lemma {:induction false} WrittenStands(lo: nat, hi: nat, k: nat, at: nat, piece: Bytes, y4m: bool,
                                         frames: nat -> Reply, decode: Bytes -> Bytes)
    requires lo <= k < hi && forall q | lo <= q < hi :: frames(q).Planes?
    requires StandsAt(FrameBytes(y4m, frames(k).parts, decode), at, piece)
    ensures StandsAt(Written(lo, hi, y4m, frames, decode), FramesLength(lo, k, y4m, frames, decode) + at, piece)
    decreases hi - lo
  {
    var first, rest := FrameBytes(y4m, frames(lo).parts, decode), Written(lo + 1, hi, y4m, frames, decode);
    if k == lo {
      StandsBefore(first, rest, at, piece);
    } else {
      FrameStands(y4m, frames(lo).parts, 0, decode);
      WrittenStands(lo + 1, hi, k, at, piece, y4m, frames, decode);
      StandsBehind(first, rest, FramesLength(lo + 1, k, y4m, frames, decode) + at, piece);
    }
  }

  lemma {:induction false} WrittenLength(lo: nat, hi: nat, y4m: bool, frames: nat -> Reply, decode: Bytes -> Bytes)
    requires lo <= hi && forall q | lo <= q < hi :: frames(q).Planes?
    ensures |Written(lo, hi, y4m, frames, decode)| == FramesLength(lo, hi, y4m, frames, decode)
    decreases hi - lo
  {
    if lo < hi {
      FrameStands(y4m, frames(lo).parts, 0, decode);
      WrittenLength(lo + 1, hi, y4m, frames, decode);
    }
  }

  /** What stands in frame `k` stands in the output, behind what was written before and the frames in front. */
  lemma PieceInPlace(end: nat, y4m: bool, before: Bytes, frames: nat -> Reply, decode: Bytes -> Bytes, k: nat, at: nat,
                     piece: Bytes)
    requires k < end && forall q: nat | q < end :: frames(q).Planes?
    requires StandsAt(FrameBytes(y4m, frames(k).parts, decode), at, piece)
    ensures StandsAt(before + Written(0, end, y4m, frames, decode),
                     |before| + (FramesLength(0, k, y4m, frames, decode) + at), piece)
  {
    WrittenStands(0, end, k, at, piece, y4m, frames, decode);
    StandsBehind(before, Written(0, end, y4m, frames, decode), FramesLength(0, k, y4m, frames, decode) + at, piece);
  }

  /** How many frames a run writes: all of them, or those before the one that failed. */
  function FramesShown(result: Outcome, numFrames: nat): nat {
    if result.failedAt.Some? then result.failedAt.value else numFrames
  }

  /** What was written before comes first, and there is as much behind it as the frames shown are long. */
  lemma OutputLength(numFrames: nat, y4m: bool, before: Bytes, frames: nat -> Reply, decode: Bytes -> Bytes)
    ensures var result := OneByOne(0, numFrames, y4m, before, frames, decode);
            var end := FramesShown(result, numFrames);
            && (forall q: nat | q < end :: frames(q).Planes?)
            && before <= result.written
            && |result.written| == |before| + FramesLength(0, end, y4m, frames, decode)
  {
    OneByOneStops(0, numFrames, y4m, before, frames, decode);
    var end := FramesShown(OneByOne(0, numFrames, y4m, before, frames, decode), numFrames);
    WrittenLength(0, end, y4m, frames, decode);
  }

  lemma FramesAreShown(numFrames: nat, y4m: bool, before: Bytes, frames: nat -> Reply, decode: Bytes -> Bytes, k: nat)
    requires k < FramesShown(OneByOne(0, numFrames, y4m, before, frames, decode), numFrames)
    ensures forall q: nat | q <= k :: frames(q).Planes?
  {
    OneByOneStops(0, numFrames, y4m, before, frames, decode);
  }

  lemma PieceInOutput(numFrames: nat, y4m: bool, before: Bytes, frames: nat -> Reply, decode: Bytes -> Bytes, k: nat,
                      at: nat, piece: Bytes)
    requires k < FramesShown(OneByOne(0, numFrames, y4m, before, frames, decode), numFrames)
    requires forall q: nat | q <= k :: frames(q).Planes?
    requires StandsAt(FrameBytes(y4m, frames(k).parts, decode), at, piece)
    ensures StandsAt(OneByOne(0, numFrames, y4m, before, frames, decode).written,
                     |before| + (FramesLength(0, k, y4m, frames, decode) + at), piece)
  {
    OneByOneStops(0, numFrames, y4m, before, frames, decode);
    var end := FramesShown(OneByOne(0, numFrames, y4m, before, frames, decode), numFrames);
    PieceInPlace(end, y4m, before, frames, decode, k, at, piece);
  }

  /** With Y4M every frame shown starts with the six bytes of "FRAME\n", behind the frames before it. */
  lemma TagInOutput(numFrames: nat, y4m: bool, before: Bytes, frames: nat -> Reply, decode: Bytes -> Bytes, k: nat)
    requires k < FramesShown(OneByOne(0, numFrames, y4m, before, frames, decode), numFrames)
    ensures forall q: nat | q <= k :: frames(q).Planes?
    ensures y4m ==> StandsAt(OneByOne(0, numFrames, y4m, before, frames, decode).written,
                             |before| + (FramesLength(0, k, y4m, frames, decode) + 0), [70, 82, 65, 77, 69, 10])
  {
    FramesAreShown(numFrames, y4m, before, frames, decode, k);
    if y4m {
      FrameStands(y4m, frames(k).parts, 0, decode);
      PieceInOutput(numFrames, y4m, before, frames, decode, k, 0, [70, 82, 65, 77, 69, 10]);
    }
  }

  /** Plane `p` of frame `k` stands, decompressed, behind the frames before, the tag, if any, and the planes before. */
  lemma PlaneInOutput(numFrames: nat, y4m: bool, before: Bytes, frames: nat -> Reply, decode: Bytes -> Bytes, k: nat,
                      p: nat)
    requires k < FramesShown(OneByOne(0, numFrames, y4m, before, frames, decode), numFrames)
    requires frames(k).Planes? ==> p < |frames(k).parts|
    ensures forall q: nat | q <= k :: frames(q).Planes?
    ensures StandsAt(OneByOne(0, numFrames, y4m, before, frames, decode).written,
                     |before| + (FramesLength(0, k, y4m, frames, decode)
                                 + PlaneStart(y4m, frames(k).parts, p, decode)),
                     decode(frames(k).parts[p]))
  {
    FramesAreShown(numFrames, y4m, before, frames, decode, k);
    PlaneInFrame(y4m, frames(k).parts, p, decode);
    PieceInOutput(numFrames, y4m, before, frames, decode, k, PlaneStart(y4m, frames(k).parts, p, decode),
                  decode(frames(k).parts[p]));
  }

  // ----- The loop

  /** Frames `n`..`n`+`size`-1 are in flight, each under the request with its own number. */
  predicate Block(inflight: map<nat, nat>, n: nat, size: nat) {
    && |inflight| == size
    && (forall k | k in inflight :: n <= k < n + size && inflight[k] == k)
    && (forall k | n <= k < n + size :: k in inflight)
  }

  predicate OneRequestPerFrame(requests: seq<nat>) {
    forall k | 0 <= k < |requests| :: requests[k] == k
  }

  lemma BlockGrows(inflight: map<nat, nat>, n: nat)
    requires Block(inflight, n, |inflight|)
    ensures var next := n + |inflight|;
            next !in inflight && Block(inflight[next := next], n, |inflight| + 1)
  {}

  lemma BlockShifts(inflight: map<nat, nat>, n: nat)
    requires Block(inflight, n, |inflight|) && n in inflight
    ensures |inflight| > 0 && Block(inflight - {n}, n + 1, |inflight| - 1)
  {}

  /** The inner request loop for frame `n`. Its last branch is never taken: the block has no holes. */
  method RequestAhead(n: nat, numFrames: nat, prefetchCount: nat, backlogCount: nat, inflight0: map<nat, nat>,
                      requests0: seq<nat>)
    returns (inflight: map<nat, nat>, requests: seq<nat>)
    requires 0 < prefetchCount <= backlogCount && n < numFrames
    requires Block(inflight0, n, |inflight0|) && |inflight0| <= prefetchCount
    requires |requests0| == n + |inflight0| <= numFrames && OneRequestPerFrame(requests0)
    ensures Block(inflight, n, |inflight|) && n in inflight
    ensures |inflight| <= backlogCount && |inflight| <= prefetchCount + 1
    ensures |requests| == n + |inflight| <= numFrames && OneRequestPerFrame(requests)
  {
    inflight, requests := inflight0, requests0;
    while |inflight| < backlogCount
      invariant Block(inflight, n, |inflight|)
      invariant |inflight| <= backlogCount && |inflight| <= prefetchCount + 1
      invariant |requests| == n + |inflight| <= numFrames && OneRequestPerFrame(requests)
      decreases backlogCount - |inflight|
    {
      var next := n + |inflight|;
      if next >= numFrames || next > n + prefetchCount {
        break;
      }
      BlockGrows(inflight, n);
      if next !in inflight {
        requests := requests + [next];
        inflight := inflight[next := |requests| - 1];
      } else {
        assert false;
        break;
      }
    }
  }

  /** The future for frame `n`: the one in flight, or a request issued on the spot. */
  method TakeFuture(n: nat, inflight0: map<nat, nat>, requests0: seq<nat>)
    returns (future: nat, inflight: map<nat, nat>, requests: seq<nat>, fallback: bool)
    requires Block(inflight0, n, |inflight0|)
    requires |requests0| == n + |inflight0| && OneRequestPerFrame(requests0)
    ensures Block(inflight, n + 1, |inflight|) && |inflight| <= |inflight0|
    ensures |requests| == n + 1 + |inflight| && OneRequestPerFrame(requests)
    ensures future == n < |requests| && requests[future] == n
    ensures fallback <==> inflight0 == map[]
    ensures if fallback then inflight == map[] else |requests| == |requests0| && |inflight| + 1 == |inflight0|
  {
    inflight, requests := inflight0, requests0;
    if n in inflight {
      BlockShifts(inflight, n);
      future := inflight[n];
      inflight := inflight - {n};
      fallback := false;
    } else {
      future := |requests|;
      requests := requests + [n];
      fallback := true;
    }
  }

  datatype Tuning = Tuning(numFrames: nat, prefetchCount: nat, backlogCount: nat)

  /**
   The state of the loop as far as requests go. `peak` is the largest number of requests in flight so far, `fallbacks`
   counts the frames that had not been requested ahead.
   */
  datatype Progress = Progress(inflight: map<nat, nat>, requests: seq<nat>, peak: nat, fallbacks: nat)

  /** Between two frames: the block stands at `n`, and every request so far was for the frame of its number. */
  predicate Standing(n: nat, t: Tuning, p: Progress) {
    && Block(p.inflight, n, |p.inflight|) && |p.inflight| <= t.prefetchCount
    && |p.requests| == n + |p.inflight| <= t.numFrames && OneRequestPerFrame(p.requests)
    && p.peak <= t.backlogCount && (if t.prefetchCount > 0 then p.peak <= t.prefetchCount + 1 else p.peak == 0)
    && p.fallbacks == if t.prefetchCount > 0 then 0 else n
  }

  /** What happens to the requests for frame `n`. */
  method NextFuture(n: nat, t: Tuning, p0: Progress) returns (future: nat, p: Progress)
    requires t.prefetchCount <= t.backlogCount && n < t.numFrames && Standing(n, t, p0)
    ensures Standing(n + 1, t, p)
    ensures future == n < |p.requests| && p.requests[future] == n
  {
    var inflight, requests, peak := p0.inflight, p0.requests, p0.peak;
    if t.prefetchCount > 0 {
      inflight, requests := RequestAhead(n, t.numFrames, t.prefetchCount, t.backlogCount, inflight, requests);
      if |inflight| > peak {
        peak := |inflight|;
      }
    }
    var fallback;
    future, inflight, requests, fallback := TakeFuture(n, inflight, requests);
    p := Progress(inflight, requests, peak, p0.fallbacks + if fallback then 1 else 0);
  }

  /** Writes one frame, plane by plane. */
  method WriteFrame(out0: Bytes, y4m: bool, parts: seq<Bytes>, decode: Bytes -> Bytes) returns (out: Bytes)
    ensures out == out0 + FrameBytes(y4m, parts, decode)
  {
    out := out0;
    if y4m {
      out := out + FRAME_TAG;
    }
    ghost var tagged := out;
    var p := 0;
    while p < |parts|
      invariant p <= |parts|
      invariant out == tagged + Decoded(parts[..p], decode)
    {
      out := out + decode(parts[p]);
      assert parts[..p + 1][..p] == parts[..p];
      p := p + 1;
    }
    assert parts[..|parts|] == parts;
  }

  /** Waiting for the future of frame `n` and writing it, or stopping at it, is one step of the simple program. */
  method ShowFrame(n: nat, numFrames: nat, y4m: bool, future: nat, requests: seq<nat>, written0: Bytes,
                   frames: nat -> Reply, decode: Bytes -> Bytes)
    returns (written: Bytes, failed: bool)
    requires n < numFrames && future < |requests| && requests[future] == n
    ensures OneByOne(n, numFrames, y4m, written0, frames, decode)
            == if failed then Outcome(written, Some(n)) else OneByOne(n + 1, numFrames, y4m, written, frames, decode)
  {
    var reply := frames(requests[future]);
    if reply.ErrorStatus? {
      return written0, true;
    }
    written := WriteFrame(written0, y4m, reply.parts, decode);
    failed := false;
  }

  /** The loop over the frames; it ends behind the last one or fails at frame `n`. */
  method PipeFrames(t: Tuning, y4m: bool, written0: Bytes, frames: nat -> Reply, decode: Bytes -> Bytes)
    returns (result: Outcome, n: nat, p: Progress)
    requires t.prefetchCount <= t.backlogCount
    ensures result == OneByOne(0, t.numFrames, y4m, written0, frames, decode)
    ensures result.failedAt == None || result.failedAt == Some(n)
    ensures Standing(if result.failedAt.Some? then n + 1 else n, t, p)
    ensures result.failedAt.None? ==> n == t.numFrames
  {
    p := Progress(map[], [], 0, 0);
    n := 0;
    var written := written0;
    while n < t.numFrames
      invariant n <= t.numFrames && Standing(n, t, p)
      invariant OneByOne(n, t.numFrames, y4m, written, frames, decode)
                == OneByOne(0, t.numFrames, y4m, written0, frames, decode)
    {
      var future, failed;
      future, p := NextFuture(n, t, p);
      written, failed := ShowFrame(n, t.numFrames, y4m, future, p.requests, written, frames, decode);
      if failed {
        return Outcome(written, Some(n)), n, p;
      }
      n := n + 1;
    }
    result := Outcome(written, None);
  }

  /**
   The result is that of the simple program, whatever `prefetch` and `backlog` are; one request is issued per frame,
   in order. `peak` and `fallbacks` are explained at `Progress`.
   */
  method Pipe(numFrames: nat, y4m: bool, header: Bytes, prefetch: int, backlog: Option<int>, frames: nat -> Reply,
              decode: Bytes -> Bytes)
    returns (result: Outcome, requests: seq<nat>, peak: nat, fallbacks: nat)
    ensures result == OneByOne(0, numFrames, y4m, if y4m then header else [], frames, decode)
    ensures OneRequestPerFrame(requests)
    ensures result.failedAt.None? ==> |requests| == numFrames
    ensures result.failedAt.Some? ==>
              && result.failedAt.value < |requests| <= numFrames
              && |requests| <= result.failedAt.value + 1 + if prefetch > 0 then prefetch else 0
    ensures prefetch > 0 ==> fallbacks == 0
    ensures prefetch <= 0 ==> fallbacks == |requests| && peak == 0
    ensures prefetch > 0 ==>
              && peak <= prefetch + 1
              && peak <= if backlog.None? then 3 * prefetch
                         else if backlog.value > prefetch then backlog.value else prefetch
  {
    var prefetchCount: nat := if prefetch > 0 then prefetch else 0;
    var wished := if backlog.None? then prefetchCount * 3 else backlog.value;
    var backlogCount: nat := if wished > prefetchCount then wished else prefetchCount;
    var n, p;
    result, n, p := PipeFrames(Tuning(numFrames, prefetchCount, backlogCount), y4m, if y4m then header else [], frames,
                               decode);
    requests, peak, fallbacks := p.requests, p.peak, p.fallbacks;
  }
}
