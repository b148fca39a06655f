/**
 The prefetch window of the proxy node: `create_remote_vnode` and its inner `fetch_frame`, up to the point where the
 caller waits for its future. Calls come from any number of threads; the lock makes them a sequence.
 */
module Proxy {
  import IdRing
  import opened Wire

  datatype Config = Config(output: int, numFrames: int, prefetch: nat, backlog: nat)

  /** Negative counts are cut off; the backlog defaults to three times the prefetch and never falls below it. */
  function MakeConfig(output: int, numFrames: int, prefetch: int, backlog: Option<int>): (cfg: Config)
    ensures cfg.prefetch <= cfg.backlog
  {
    var p := if prefetch > 0 then prefetch else 0;
    var b := if backlog.None? || backlog.value < 0 then p * 3
             else if backlog.value > p then backlog.value else p;
    Config(output, numFrames, p, b)
  }

  /** What a frame request was issued for. A future is named by its position among all requests. */
  datatype FrameKey = FrameKey(output: int, n: int)

  /** `handed` is history: the futures given to callers, in the order of the calls. */
  datatype Window = Window(
    inflight: map<int, nat>,
    requests: seq<FrameKey>,
    cancelled: set<nat>,
    handed: seq<nat>)

  const EMPTY := Window(map[], [], {}, [])

  function Request(cfg: Config, w: Window, n: int): Window {
    w.(inflight := w.inflight[n := |w.requests|], requests := w.requests + [FrameKey(cfg.output, n)])
  }

  /** The future the caller will wait on: one in flight for `n`, or a new one. */
  function Take(cfg: Config, w: Window, n: int): Window {
    var v := if n in w.inflight then w else Request(cfg, w, n);
    v.(inflight := v.inflight - {n}, handed := v.handed + [v.inflight[n]])
  }

  predicate Wanted(cfg: Config, n: int, k: int) {
    n <= k <= n + cfg.backlog
  }

  /** Everything outside the active window is cancelled. */
  function Prune(cfg: Config, w: Window, n: int): Window {
    w.(inflight := map k | k in w.inflight && Wanted(cfg, n, k) :: w.inflight[k],
       cancelled := w.cancelled + set k | k in w.inflight && !Wanted(cfg, n, k) :: w.inflight[k])
  }

  function Stop(cfg: Config, n: int): int {
    if n + cfg.prefetch + 1 < cfg.numFrames then n + cfg.prefetch + 1 else cfg.numFrames
  }

  function Fill(cfg: Config, w: Window, n: int, next: int): Window
    decreases Stop(cfg, n) - next
  {
    if next >= Stop(cfg, n) || |w.inflight| >= cfg.backlog then w
    else if next in w.inflight then Fill(cfg, w, n, next + 1)
    else Fill(cfg, Request(cfg, w, next), n, next + 1)
  }

  /** One call of `fetch_frame`, inside the lock. */
  function Fetch(cfg: Config, w: Window, n: int): Window {
    var taken := Take(cfg, w, n);
    if cfg.prefetch > 0 then Fill(cfg, Prune(cfg, taken, n), n, n + 1) else taken
  }

  /** The transport as the proxy uses it: requests are issued and futures cancelled. */
  class FrameTransport {
    var requests: seq<FrameKey>
    var cancelled: set<nat>

    constructor ()
      ensures requests == [] && cancelled == {}
    {
      requests, cancelled := [], {};
    }

    method RequestFrame(output: int, n: int) returns (future: nat)
      modifies this`requests
      ensures future == |old(requests)| && requests == old(requests) + [FrameKey(output, n)]
    {
      future := |requests|;
      requests := requests + [FrameKey(output, n)];
    }

    method Cancel(future: nat)
      modifies this`cancelled
      ensures cancelled == old(cancelled) + {future}
    {
      cancelled := cancelled + {future};
    }
  }

  class ProxyNode {
    const cfg: Config
    const transport: FrameTransport
    var inflight: map<int, nat>
    ghost var handed: seq<nat>

    ghost function State(): Window
      reads this, transport
    {
      Window(inflight, transport.requests, transport.cancelled, handed)
    }

    constructor (output: int, numFrames: int, prefetch: int, backlog: Option<int>)
      ensures cfg == MakeConfig(output, numFrames, prefetch, backlog)
      ensures fresh(transport) && State() == EMPTY
    {
      var p := if prefetch > 0 then prefetch else 0;
      var b := if backlog.None? || backlog.value < 0 then p * 3
               else if backlog.value > p then backlog.value else p;
      cfg := Config(output, numFrames, p, b);
      transport := new FrameTransport();
      inflight, handed := map[], [];
    }

    method FetchFrame(n: int) returns (future: nat)
      modifies this, transport
      ensures State() == Fetch(cfg, old(State()), n)
      ensures handed == old(handed) + [future]
    {
      if n in inflight {
        future := inflight[n];
        inflight := inflight - {n};
      } else {
        future := transport.RequestFrame(cfg.output, n);
        assert inflight[n := future] - {n} == inflight;
      }
      handed := handed + [future];
      assert State() == Take(cfg, old(State()), n);
      if cfg.prefetch > 0 {
        PruneWindow(n);
        FillWindow(n);
      }
    }

    /** The loop over a copy of the keys; their order does not matter. */
    method PruneWindow(n: int)
      modifies this`inflight, transport`cancelled
      ensures State() == Prune(cfg, old(State()), n)
      ensures inflight == map k | k in old(inflight) && n <= k <= n + cfg.backlog :: old(inflight)[k]
      ensures transport.cancelled
              == old(transport.cancelled)
                 + set k | k in old(inflight) && (k < n || k > n + cfg.backlog) :: old(inflight)[k]
    {
      ghost var was := inflight;
      var todo := inflight.Keys;
      while todo != {}
        invariant todo <= was.Keys
        invariant inflight == map k | k in was && (k in todo || Wanted(cfg, n, k)) :: was[k]
        invariant transport.cancelled
                  == old(transport.cancelled) + set k | k in was && k !in todo && !Wanted(cfg, n, k) :: was[k]
        decreases todo
      {
        ghost var some := Element(todo);
        var stale :| stale in todo;
        todo := todo - {stale};
        if stale < n || stale > n + cfg.backlog {
          var future := inflight[stale];
          inflight := inflight - {stale};
          transport.Cancel(future);
        }
      }
    }

    method FillWindow(n: int)
      modifies this`inflight, transport`requests
      ensures State() == Fill(cfg, old(State()), n, n + 1)
    {
      var next := n + 1;
      while next < Stop(cfg, n)
        invariant Fill(cfg, State(), n, next) == Fill(cfg, old(State()), n, n + 1)
        invariant transport.cancelled == old(transport.cancelled) && handed == old(handed)
        decreases Stop(cfg, n) - next
      {
        if |inflight| >= cfg.backlog {
          break;
        }
        if next !in inflight {
          var future := transport.RequestFrame(cfg.output, next);
          inflight := inflight[next := future];
        }
        next := next + 1;
      }
    }
  }

  lemma Element<T>(s: set<T>) returns (x: T)
    requires s != {}
    ensures x in s
  {
    x :| x in s;
  }

  // ----- The books: every request is handed out, cancelled or still in flight, and only one of these

  predicate Handed(w: Window, f: nat) {
    f in w.handed
  }

  predicate InFlight(w: Window, f: nat) {
    exists k :: k in w.inflight && w.inflight[k] == f
  }

  predicate Booked(cfg: Config, w: Window) {
    && (forall k | k in w.inflight ::
          w.inflight[k] < |w.requests| && w.requests[w.inflight[k]] == FrameKey(cfg.output, k)
          && w.inflight[k] !in w.cancelled && w.inflight[k] !in w.handed)
    && (forall f | f in w.handed :: f < |w.requests| && f !in w.cancelled)
    && (forall f | f in w.cancelled :: f < |w.requests|)
    && (forall f | 0 <= f < |w.requests| :: Handed(w, f) || f in w.cancelled || InFlight(w, f))
    && (forall a, b | 0 <= a < b < |w.handed| :: w.handed[a] != w.handed[b])
  }

  lemma RequestBooks(cfg: Config, w: Window, n: int)
    requires Booked(cfg, w) && n !in w.inflight
    ensures Booked(cfg, Request(cfg, w, n))
  {}

  lemma TakeBooks(cfg: Config, w: Window, n: int)
    requires Booked(cfg, w)
    ensures Booked(cfg, Take(cfg, w, n))
  {
    var v := if n in w.inflight then w else Request(cfg, w, n);
    if n !in w.inflight {
      RequestBooks(cfg, w, n);
    }
    var u := Take(cfg, w, n);
    var future := v.inflight[n];
    forall k | k in u.inflight ensures u.inflight[k] != future {
      assert v.requests[u.inflight[k]] == FrameKey(cfg.output, k);
    }
    forall f | 0 <= f < |u.requests| ensures Handed(u, f) || f in u.cancelled || InFlight(u, f) {
      if Handed(v, f) {
      } else if f !in v.cancelled && f != future {
        var k :| k in v.inflight && v.inflight[k] == f;
        assert k in u.inflight && u.inflight[k] == f;
      }
    }
  }

  lemma PruneBooks(cfg: Config, w: Window, n: int)
    requires Booked(cfg, w)
    ensures Booked(cfg, Prune(cfg, w, n))
  {}

  lemma {:induction false} FillBooks(cfg: Config, w: Window, n: int, next: int)
    requires Booked(cfg, w)
    ensures Booked(cfg, Fill(cfg, w, n, next))
    ensures Fill(cfg, w, n, next).handed == w.handed
    decreases Stop(cfg, n) - next
  {
    if next >= Stop(cfg, n) || |w.inflight| >= cfg.backlog {
    } else if next in w.inflight {
      FillBooks(cfg, w, n, next + 1);
    } else {
      RequestBooks(cfg, w, next);
      FillBooks(cfg, Request(cfg, w, next), n, next + 1);
    }
  }

  lemma FetchBooks(cfg: Config, w: Window, n: int)
    requires Booked(cfg, w)
    ensures Booked(cfg, Fetch(cfg, w, n))
  {
    TakeBooks(cfg, w, n);
    if cfg.prefetch > 0 {
      PruneBooks(cfg, Take(cfg, w, n), n);
      FillBooks(cfg, Prune(cfg, Take(cfg, w, n), n), n, n + 1);
    }
  }

  // ----- The window

  /** What is in flight between two calls, `n` being the frame of the last one. */
  predicate InWindow(cfg: Config, w: Window, n: int) {
    forall k | k in w.inflight :: n < k <= n + cfg.backlog && k < cfg.numFrames
  }

  /** Nothing is in flight beyond the clip, and nothing at all without prefetch. */
  predicate Bounded(cfg: Config, w: Window) {
    && (forall k | k in w.inflight :: k < cfg.numFrames)
    && (cfg.prefetch == 0 ==> w.inflight == map[])
  }

  function Interval(lo: int, hi: int): (s: set<int>)
    requires lo <= hi
    ensures |s| == hi - lo
    ensures forall k :: k in s <==> lo <= k < hi
    decreases hi - lo
  {
    if lo == hi then {} else Interval(lo, hi - 1) + {hi - 1}
  }

  /** Pigeonhole: a window that is full holds every frame of it. */
  lemma FullWindow(cfg: Config, w: Window, n: int)
    requires forall k | k in w.inflight :: n < k <= n + cfg.backlog
    ensures |w.inflight| <= cfg.backlog
    ensures |w.inflight| == cfg.backlog ==> forall k | n < k <= n + cfg.backlog :: k in w.inflight
  {
    var window := Interval(n + 1, n + cfg.backlog + 1);
    IdRing.SubsetSize(w.inflight.Keys, window);
    assert |w.inflight| == |w.inflight.Keys|;
    if |w.inflight| == cfg.backlog {
      assert w.inflight.Keys == window;
    }
  }

  lemma {:induction false} FillCovers(cfg: Config, w: Window, n: int, next: int)
    requires cfg.prefetch <= cfg.backlog && n < next && InWindow(cfg, w, n)
    requires forall k | n < k < next && k < Stop(cfg, n) :: k in w.inflight
    ensures var v := Fill(cfg, w, n, next);
            InWindow(cfg, v, n) && forall k | n < k < Stop(cfg, n) :: k in v.inflight
    decreases Stop(cfg, n) - next
  {
    FullWindow(cfg, w, n);
    if next >= Stop(cfg, n) || |w.inflight| >= cfg.backlog {
    } else if next in w.inflight {
      FillCovers(cfg, w, n, next + 1);
    } else {
      FillCovers(cfg, Request(cfg, w, next), n, next + 1);
    }
  }

  /**
   After every call, whatever seeks came before: what is in flight lies in the window and inside the clip, it fits in
   the backlog, and every frame to prefetch is there, so giving up at the backlog never drops one.
   */
  lemma FetchKeepsWindow(cfg: Config, w: Window, n: int)
    requires cfg.prefetch <= cfg.backlog && Bounded(cfg, w)
    ensures var v := Fetch(cfg, w, n);
            && Bounded(cfg, v)
            && (cfg.prefetch > 0 ==>
                  && InWindow(cfg, v, n)
                  && |v.inflight| <= cfg.backlog
                  && forall k | n < k <= n + cfg.prefetch && k < cfg.numFrames :: k in v.inflight)
  {
    var taken := Take(cfg, w, n);
    TakeOnlyRemoves(cfg, w, n);
    if cfg.prefetch > 0 {
      var pruned := Prune(cfg, taken, n);
      var v := Fill(cfg, pruned, n, n + 1);
      FillCovers(cfg, pruned, n, n + 1);
      FullWindow(cfg, v, n);
    }
  }

  lemma TakeOnlyRemoves(cfg: Config, w: Window, n: int)
    ensures Take(cfg, w, n).inflight == w.inflight - {n}
  {}

  // ----- What one call does, exactly

  /** A request for every frame of lo..hi-1 that is not there yet, in order. */
  function Missing(output: int, present: set<int>, lo: int, hi: int): seq<FrameKey>
    decreases hi - lo
  {
    if lo >= hi then []
    else (if lo in present then [] else [FrameKey(output, lo)]) + Missing(output, present, lo + 1, hi)
  }

  lemma {:induction false} MissingNothing(output: int, present: set<int>, lo: int, hi: int)
    requires forall k | lo <= k < hi :: k in present
    ensures Missing(output, present, lo, hi) == []
    decreases hi - lo
  {
    if lo < hi {
      MissingNothing(output, present, lo + 1, hi);
    }
  }

  lemma {:induction false} MissingDependsOn(output: int, a: set<int>, b: set<int>, lo: int, hi: int)
    requires forall k | lo <= k < hi :: k in a <==> k in b
    ensures Missing(output, a, lo, hi) == Missing(output, b, lo, hi)
    decreases hi - lo
  {
    if lo < hi {
      MissingDependsOn(output, a, b, lo + 1, hi);
    }
  }

  /** `v` has what `w` has, and the frames lo..hi-1 besides, each requested if it was not there. */
  predicate Refilled(cfg: Config, w: Window, v: Window, lo: int, hi: int) {
    && v.requests == w.requests + Missing(cfg.output, w.inflight.Keys, lo, hi)
    && (forall k | k in w.inflight :: k in v.inflight && v.inflight[k] == w.inflight[k])
    && (forall k | k in v.inflight :: k in w.inflight || lo <= k < hi)
    && (forall k | lo <= k < hi :: k in v.inflight)
    && v.cancelled == w.cancelled && v.handed == w.handed
  }

  lemma RefilledStep(cfg: Config, w: Window, v: Window, lo: int, hi: int)
    requires lo < hi && (if lo in w.inflight then Refilled(cfg, w, v, lo + 1, hi)
                         else Refilled(cfg, Request(cfg, w, lo), v, lo + 1, hi))
    requires lo in w.inflight || lo in v.inflight
    ensures Refilled(cfg, w, v, lo, hi)
  {
    if lo !in w.inflight {
      var r := Request(cfg, w, lo);
      MissingDependsOn(cfg.output, r.inflight.Keys, w.inflight.Keys, lo + 1, hi);
      assert lo in r.inflight;
    }
  }

  lemma {:induction false} FillExactly(cfg: Config, w: Window, n: int, next: int)
    requires cfg.prefetch <= cfg.backlog && n < next
    requires forall k | k in w.inflight :: n < k <= n + cfg.backlog
    requires forall k | n < k < next && k < Stop(cfg, n) :: k in w.inflight
    ensures Refilled(cfg, w, Fill(cfg, w, n, next), next, Stop(cfg, n))
    decreases Stop(cfg, n) - next
  {
    FullWindow(cfg, w, n);
    if next >= Stop(cfg, n) {
    } else if |w.inflight| >= cfg.backlog {
      MissingNothing(cfg.output, w.inflight.Keys, next, Stop(cfg, n));
    } else {
      var r := if next in w.inflight then w else Request(cfg, w, next);
      FillExactly(cfg, r, n, next + 1);
      assert next in r.inflight;
      RefilledStep(cfg, w, Fill(cfg, w, n, next), next, Stop(cfg, n));
    }
  }

  /** Exactly the futures outside n..n+backlog are cancelled. */
  lemma FetchCancels(cfg: Config, w: Window, n: int)
    requires 0 < cfg.prefetch <= cfg.backlog
    ensures Fetch(cfg, w, n).cancelled
            == w.cancelled + set k | k in w.inflight && (k < n || k > n + cfg.backlog) :: w.inflight[k]
  {
    TakeExactly(cfg, w, n);
    PruneExactly(cfg, w, Take(cfg, w, n), n);
    FillKeeps(cfg, Prune(cfg, Take(cfg, w, n), n), n, n + 1);
  }

  /** Those inside stay as they are, the frames to prefetch are there, and nothing else is. */
  lemma FetchLeaves(cfg: Config, w: Window, n: int)
    requires 0 < cfg.prefetch <= cfg.backlog
    ensures var v := Fetch(cfg, w, n);
            && (forall k | k in w.inflight && n < k <= n + cfg.backlog ::
                  k in v.inflight && v.inflight[k] == w.inflight[k])
            && (forall k | n < k <= n + cfg.prefetch && k < cfg.numFrames :: k in v.inflight)
            && (forall k | k in v.inflight ::
                  n < k <= n + cfg.backlog && (k in w.inflight || (k <= n + cfg.prefetch && k < cfg.numFrames)))
  {
    var taken := Take(cfg, w, n);
    var pruned := Prune(cfg, taken, n);
    TakeExactly(cfg, w, n);
    PruneExactly(cfg, w, taken, n);
    FillExactly(cfg, pruned, n, n + 1);
    WhatStays(cfg, w, pruned, Fetch(cfg, w, n), n, Stop(cfg, n));
  }

  /** Exactly the frames that are wanted and not there are requested, `n` first. */
  lemma FetchRequests(cfg: Config, w: Window, n: int)
    requires 0 < cfg.prefetch <= cfg.backlog
    ensures var end := if n + cfg.prefetch + 1 < cfg.numFrames then n + cfg.prefetch + 1 else cfg.numFrames;
            Fetch(cfg, w, n).requests
            == w.requests + Missing(cfg.output, w.inflight.Keys, n, n + 1)
               + Missing(cfg.output, w.inflight.Keys, n + 1, end)
  {
    PruneRequests(cfg, w, n);
    RequestsAhead(cfg, w, n);
  }

  /** The caller gets the future in flight for frame `n`, or the one just requested. */
  lemma FetchGives(cfg: Config, w: Window, n: int)
    ensures Fetch(cfg, w, n).handed == w.handed + [if n in w.inflight then w.inflight[n] else |w.requests|]
  {
    TakeExactly(cfg, w, n);
    if cfg.prefetch > 0 {
      FillKeeps(cfg, Prune(cfg, Take(cfg, w, n), n), n, n + 1);
    }
  }

  lemma PruneRequests(cfg: Config, w: Window, n: int)
    ensures Prune(cfg, Take(cfg, w, n), n).requests == w.requests + Missing(cfg.output, w.inflight.Keys, n, n + 1)
  {
    TakeExactly(cfg, w, n);
  }

  lemma PruneLeaves(cfg: Config, w: Window, n: int)
    ensures var pruned := Prune(cfg, Take(cfg, w, n), n);
            && (forall k | k in pruned.inflight :: n < k <= n + cfg.backlog)
            && (forall k | n < k <= n + cfg.backlog :: k in pruned.inflight.Keys <==> k in w.inflight.Keys)
  {
    TakeExactly(cfg, w, n);
  }

  /** Behind frame `n` the requests are for what was missing before the call. */
  lemma RequestsAhead(cfg: Config, w: Window, n: int)
    requires 0 < cfg.prefetch <= cfg.backlog
    ensures Fetch(cfg, w, n).requests
            == Prune(cfg, Take(cfg, w, n), n).requests + Missing(cfg.output, w.inflight.Keys, n + 1, Stop(cfg, n))
  {
    var pruned := Prune(cfg, Take(cfg, w, n), n);
    PruneLeaves(cfg, w, n);
    FillRequests(cfg, pruned, n);
    MissingDependsOn(cfg.output, pruned.inflight.Keys, w.inflight.Keys, n + 1, Stop(cfg, n));
  }

  lemma FillRequests(cfg: Config, pruned: Window, n: int)
    requires cfg.prefetch <= cfg.backlog
    requires forall k | k in pruned.inflight :: n < k <= n + cfg.backlog
    ensures Fill(cfg, pruned, n, n + 1).requests
            == pruned.requests + Missing(cfg.output, pruned.inflight.Keys, n + 1, Stop(cfg, n))
  {
    FillExactly(cfg, pruned, n, n + 1);
  }

  lemma WhatStays(cfg: Config, w: Window, pruned: Window, v: Window, n: int, end: int)
    requires pruned.inflight == map k | k in w.inflight && n < k <= n + cfg.backlog :: w.inflight[k]
    requires Refilled(cfg, pruned, v, n + 1, end)
    ensures forall k | k in w.inflight && n < k <= n + cfg.backlog :: k in v.inflight && v.inflight[k] == w.inflight[k]
    ensures forall k | k in v.inflight :: (k in w.inflight && n < k <= n + cfg.backlog) || n < k < end
    ensures forall k | n < k < end :: k in v.inflight
  {
    assert forall k | k in pruned.inflight :: k in v.inflight && v.inflight[k] == pruned.inflight[k];
  }

  /** Without prefetching a call takes its own frame and touches nothing else. */
  lemma FetchWithoutPrefetch(cfg: Config, w: Window, n: int)
    requires cfg.prefetch == 0
    ensures var v := Fetch(cfg, w, n);
            && v.inflight == w.inflight - {n} && v.cancelled == w.cancelled
            && v.requests == w.requests + Missing(cfg.output, w.inflight.Keys, n, n + 1)
            && v.handed == w.handed + [if n in w.inflight then w.inflight[n] else |w.requests|]
  {
    TakeExactly(cfg, w, n);
  }

  lemma TakeExactly(cfg: Config, w: Window, n: int)
    ensures var taken := Take(cfg, w, n);
            && taken.inflight == w.inflight - {n} && taken.cancelled == w.cancelled
            && taken.requests == w.requests + Missing(cfg.output, w.inflight.Keys, n, n + 1)
            && taken.handed == w.handed + [if n in w.inflight then w.inflight[n] else |w.requests|]
  {
    assert Missing(cfg.output, w.inflight.Keys, n + 1, n + 1) == [];
  }

  lemma PruneExactly(cfg: Config, w: Window, taken: Window, n: int)
    requires taken.inflight == w.inflight - {n}
    ensures var pruned := Prune(cfg, taken, n);
            && pruned.inflight == (map k | k in w.inflight && n < k <= n + cfg.backlog :: w.inflight[k])
            && pruned.cancelled
               == taken.cancelled + (set k | k in w.inflight && (k < n || k > n + cfg.backlog) :: w.inflight[k])
            && pruned.requests == taken.requests && pruned.handed == taken.handed
  {
    var stale := set k | k in w.inflight && (k < n || k > n + cfg.backlog) :: w.inflight[k];
    var gone := set k | k in taken.inflight && !Wanted(cfg, n, k) :: taken.inflight[k];
    forall f | f in stale ensures f in gone {
      var k :| k in w.inflight && (k < n || k > n + cfg.backlog) && w.inflight[k] == f;
      assert k in taken.inflight && taken.inflight[k] == f;
    }
    forall f | f in gone ensures f in stale {
      var k :| k in taken.inflight && !Wanted(cfg, n, k) && taken.inflight[k] == f;
      assert k in w.inflight && w.inflight[k] == f;
    }
    assert gone == stale;
  }

  /** How the constructor's arguments become the configuration: negative values count as none, the backlog as 3 : 1. */
  lemma ConfigFromArguments(output: int, numFrames: int, prefetch: int, backlog: Option<int>)
    ensures var cfg := MakeConfig(output, numFrames, prefetch, backlog);
            && cfg.output == output && cfg.numFrames == numFrames
            && (prefetch >= 0 ==> cfg.prefetch == prefetch) && (prefetch < 0 ==> cfg.prefetch == 0)
            && (backlog.None? || backlog.value < 0 ==> cfg.backlog == 3 * cfg.prefetch)
            && (backlog.Some? && 0 <= backlog.value < cfg.prefetch ==> cfg.backlog == cfg.prefetch)
            && (backlog.Some? && backlog.value >= cfg.prefetch ==> cfg.backlog == backlog.value)
  {}

  // ----- Whole sequences of calls

  function Play(cfg: Config, ns: seq<int>): Window {
    if ns == [] then EMPTY else Fetch(cfg, Play(cfg, ns[..|ns| - 1]), ns[|ns| - 1])
  }

  lemma {:induction false} FillKeeps(cfg: Config, w: Window, n: int, next: int)
    ensures var v := Fill(cfg, w, n, next);
            w.requests <= v.requests && v.handed == w.handed && v.cancelled == w.cancelled
    decreases Stop(cfg, n) - next
  {
    if next >= Stop(cfg, n) || |w.inflight| >= cfg.backlog {
    } else if next in w.inflight {
      FillKeeps(cfg, w, n, next + 1);
    } else {
      FillKeeps(cfg, Request(cfg, w, next), n, next + 1);
    }
  }

  /** A call adds one future for its caller; it was issued for the frame the caller asked for. */
  lemma FetchHands(cfg: Config, w: Window, n: int)
    requires Booked(cfg, w)
    ensures var v := Fetch(cfg, w, n);
            && w.requests <= v.requests && |v.handed| == |w.handed| + 1 && v.handed[..|w.handed|] == w.handed
            && v.handed[|w.handed|] < |v.requests|
            && v.requests[v.handed[|w.handed|]] == FrameKey(cfg.output, n)
  {
    TakeBooks(cfg, w, n);
    var taken := Take(cfg, w, n);
    if cfg.prefetch > 0 {
      FillKeeps(cfg, Prune(cfg, taken, n), n, n + 1);
    }
  }

  lemma {:induction false} PlayKeeps(cfg: Config, ns: seq<int>)
    requires cfg.prefetch <= cfg.backlog
    ensures Booked(cfg, Play(cfg, ns)) && Bounded(cfg, Play(cfg, ns))
    decreases |ns|
  {
    if ns != [] {
      PlayKeeps(cfg, ns[..|ns| - 1]);
      FetchBooks(cfg, Play(cfg, ns[..|ns| - 1]), ns[|ns| - 1]);
      FetchKeepsWindow(cfg, Play(cfg, ns[..|ns| - 1]), ns[|ns| - 1]);
    }
  }

  /** Every caller so far waits on a future issued for the frame of its call. */
  predicate AllRight(cfg: Config, w: Window, ns: seq<int>) {
    && |w.handed| == |ns|
    && forall j | 0 <= j < |ns| ::
         w.handed[j] < |w.requests| && w.requests[w.handed[j]] == FrameKey(cfg.output, ns[j])
  }

  lemma AllRightStep(cfg: Config, w: Window, v: Window, ns: seq<int>, n: int)
    requires AllRight(cfg, w, ns)
    requires w.requests <= v.requests && |v.handed| == |w.handed| + 1 && v.handed[..|w.handed|] == w.handed
    requires v.handed[|w.handed|] < |v.requests| && v.requests[v.handed[|w.handed|]] == FrameKey(cfg.output, n)
    ensures AllRight(cfg, v, ns + [n])
  {}

  lemma FetchIsRight(cfg: Config, w: Window, ns: seq<int>, n: int)
    requires Booked(cfg, w) && AllRight(cfg, w, ns)
    ensures AllRight(cfg, Fetch(cfg, w, n), ns + [n])
  {
    FetchHands(cfg, w, n);
    AllRightStep(cfg, w, Fetch(cfg, w, n), ns, n);
  }

  lemma LastIsRight(cfg: Config, ns: seq<int>, init: seq<int>, n: int)
    requires ns == init + [n] && Booked(cfg, Play(cfg, init)) && AllRight(cfg, Play(cfg, init), init)
    ensures AllRight(cfg, Play(cfg, ns), ns)
  {
    FetchIsRight(cfg, Play(cfg, init), init, n);
    assert ns[..|ns| - 1] == init;
  }

  lemma {:induction false} PlayIsRight(cfg: Config, ns: seq<int>)
    requires cfg.prefetch <= cfg.backlog
    ensures AllRight(cfg, Play(cfg, ns), ns)
    decreases |ns|
  {
    if ns != [] {
      PlayKeeps(cfg, ns[..|ns| - 1]);
      PlayIsRight(cfg, ns[..|ns| - 1]);
      LastIsRight(cfg, ns, ns[..|ns| - 1], ns[|ns| - 1]);
    }
  }

  /**
   However the calls seek, the future call `j` waits on was issued for exactly its output and frame, and no call,
   earlier or later, has cancelled it.
   */
  lemma FuturesAreRight(cfg: Config, ns: seq<int>, j: nat)
    requires cfg.prefetch <= cfg.backlog && j < |ns|
    ensures var w := Play(cfg, ns);
            && |w.handed| == |ns| && w.handed[j] < |w.requests|
            && w.requests[w.handed[j]] == FrameKey(cfg.output, ns[j])
            && w.handed[j] !in w.cancelled
  {
    PlayIsRight(cfg, ns);
    PlayKeeps(cfg, ns);
    assert Play(cfg, ns).handed[j] in Play(cfg, ns).handed;
  }

  datatype Answer<+F> = Cancelled | Frame(f: F)

  /** What the callers get when the waiting is over, all calls having been made. */
  function Answers<F>(cfg: Config, ns: seq<int>, server: FrameKey -> F): seq<Answer<F>> {
    var w := Play(cfg, ns);
    seq(|w.handed|, j requires 0 <= j < |w.handed| =>
      if w.handed[j] in w.cancelled || w.handed[j] >= |w.requests| then Cancelled
      else Frame(server(w.requests[w.handed[j]])))
  }

  /** The prefetching proxy returns what the proxy without prefetch returns: the server's frame for every call. */
  lemma PrefetchIsTransparent<F>(output: int, numFrames: int, prefetch: int, backlog: Option<int>, ns: seq<int>,
                                 server: FrameKey -> F)
    ensures Answers(MakeConfig(output, numFrames, prefetch, backlog), ns, server)
            == Answers(MakeConfig(output, numFrames, 0, None), ns, server)
            == seq(|ns|, j requires 0 <= j < |ns| => Frame(server(FrameKey(output, ns[j]))))
  {
    AnswersAreFrames(MakeConfig(output, numFrames, prefetch, backlog), ns, server);
    AnswersAreFrames(MakeConfig(output, numFrames, 0, None), ns, server);
  }

  lemma AnswersAreFrames<F>(cfg: Config, ns: seq<int>, server: FrameKey -> F)
    requires cfg.prefetch <= cfg.backlog
    ensures Answers(cfg, ns, server)
            == seq(|ns|, j requires 0 <= j < |ns| => Frame(server(FrameKey(cfg.output, ns[j]))))
  {
    PlayIsRight(cfg, ns);
    forall j | 0 <= j < |ns| ensures Answers(cfg, ns, server)[j] == Frame(server(FrameKey(cfg.output, ns[j]))) {
      FuturesAreRight(cfg, ns, j);
    }
  }

  // ----- Conservation

  function Elements(s: seq<nat>): set<nat> {
    set f | f in s
  }

  function Tokens(inflight: map<int, nat>): set<nat> {
    set k | k in inflight :: inflight[k]
  }

  lemma BookedPartitions(cfg: Config, w: Window)
    requires Booked(cfg, w)
    ensures Elements(w.handed) + w.cancelled + Tokens(w.inflight) == Interval(0, |w.requests|)
    ensures Elements(w.handed) !! w.cancelled !! Tokens(w.inflight)
  {}

  lemma UnionSize(a: set<nat>, b: set<nat>, c: set<nat>)
    requires a !! b !! c
    ensures |a + b + c| == |a| + |b| + |c|
  {}

  /** Issued = handed out + cancelled + in flight, as disjoint sets, with one handed out per call. */
  lemma RequestsConserved(cfg: Config, ns: seq<int>)
    requires cfg.prefetch <= cfg.backlog
    ensures var w := Play(cfg, ns);
            && Elements(w.handed) + w.cancelled + Tokens(w.inflight) == Interval(0, |w.requests|)
            && Elements(w.handed) !! w.cancelled !! Tokens(w.inflight)
            && |w.requests| == |ns| + |w.cancelled| + |w.inflight|
  {
    var w := Play(cfg, ns);
    PlayKeeps(cfg, ns);
    PlayIsRight(cfg, ns);
    BookedPartitions(cfg, w);
    DistinctSize(w.handed);
    TokensSize(cfg, w.inflight, w.requests);
    UnionSize(Elements(w.handed), w.cancelled, Tokens(w.inflight));
  }

  lemma {:induction false} DistinctSize(s: seq<nat>)
    requires forall a, b | 0 <= a < b < |s| :: s[a] != s[b]
    ensures |Elements(s)| == |s|
  {
    if s == [] {
      assert Elements(s) == {};
    } else {
      var init, last := s[..|s| - 1], s[|s| - 1];
      DistinctSize(init);
      assert s == init + [last];
      assert Elements(s) == Elements(init) + {last};
      assert last !in Elements(init);
    }
  }

  lemma {:induction false} TokensSize(cfg: Config, inflight: map<int, nat>, requests: seq<FrameKey>)
    requires forall k | k in inflight :: inflight[k] < |requests| && requests[inflight[k]] == FrameKey(cfg.output, k)
    ensures |Tokens(inflight)| == |inflight|
    decreases |inflight|
  {
    if inflight == map[] {
      assert Tokens(map[]) == {};
    } else {
      assert inflight.Keys != {};
      var k := Element(inflight.Keys);
      var rest := inflight - {k};
      assert inflight.Keys == rest.Keys + {k};
      assert |rest| == |inflight| - 1;
      TokensSize(cfg, rest, requests);
      assert Tokens(inflight) == Tokens(rest) + {inflight[k]};
      assert inflight[k] !in Tokens(rest);
    }
  }

  // ----- Playing in order

  function Range(m: nat): (s: seq<int>)
    ensures |s| == m && forall j | 0 <= j < m :: s[j] == j
  {
    seq(m, j => j)
  }

  /**
   Requests 0..r-1 were issued for frames 0..r-1 in this order; the first `m` were handed out, the others are in flight
   and nothing was cancelled.
   */
  predicate InOrder(cfg: Config, w: Window, m: nat, r: nat) {
    && m <= r == |w.requests| && (forall f | 0 <= f < r :: w.requests[f] == FrameKey(cfg.output, f))
    && |w.handed| == m && (forall j | 0 <= j < m :: w.handed[j] == j)
    && w.cancelled == {}
    && (forall k | k in w.inflight :: m <= k < r && w.inflight[k] == k)
    && (forall k | m <= k < r :: k in w.inflight)
  }

  lemma InOrderSize(cfg: Config, w: Window, m: nat, r: nat)
    requires InOrder(cfg, w, m, r)
    ensures |w.inflight| == r - m
  {
    assert w.inflight.Keys == Interval(m, r);
    assert |w.inflight| == |w.inflight.Keys|;
  }

  lemma RequestInOrder(cfg: Config, w: Window, m: nat, r: nat)
    requires InOrder(cfg, w, m, r)
    ensures InOrder(cfg, Request(cfg, w, r), m, r + 1)
  {}

  lemma InOrderHas(cfg: Config, w: Window, m: nat, r: nat, k: nat)
    requires InOrder(cfg, w, m, r) && m <= k <= r
    ensures k in w.inflight <==> k < r
  {}

  /** While there is something left to request, filling moves on to the next frame, which is then in flight. */
  lemma FillMoves(cfg: Config, w: Window, n: nat, m: nat, r: nat, next: nat) returns (v: Window, q: nat)
    requires m == n + 1 && InOrder(cfg, w, m, r) && m <= next <= r <= Stop(cfg, n)
    requires next < Stop(cfg, n) && |w.inflight| < cfg.backlog
    ensures InOrder(cfg, v, m, q) && next < q <= Stop(cfg, n)
    ensures Fill(cfg, w, n, next) == Fill(cfg, v, n, next + 1)
  {
    InOrderHas(cfg, w, m, r, next);
    if next < r {
      v, q := w, r;
    } else {
      RequestInOrder(cfg, w, m, r);
      v, q := Request(cfg, w, next), r + 1;
    }
  }

  /** It ends with everything requested: the backlog holds the whole interval. */
  lemma FillEnds(cfg: Config, w: Window, n: nat, m: nat, r: nat, next: nat)
    requires m == n + 1 && cfg.prefetch <= cfg.backlog && InOrder(cfg, w, m, r) && m <= next <= r <= Stop(cfg, n)
    requires next >= Stop(cfg, n) || |w.inflight| >= cfg.backlog
    ensures r == Stop(cfg, n) && Fill(cfg, w, n, next) == w
  {
    InOrderSize(cfg, w, m, r);
  }

  lemma {:induction false} FillInOrder(cfg: Config, w: Window, n: nat, m: nat, r: nat, next: nat)
    requires cfg.prefetch <= cfg.backlog
    requires m == n + 1 && InOrder(cfg, w, m, r) && m <= next <= r <= Stop(cfg, n)
    ensures InOrder(cfg, Fill(cfg, w, n, next), m, Stop(cfg, n))
    decreases Stop(cfg, n) - next
  {
    if next >= Stop(cfg, n) || |w.inflight| >= cfg.backlog {
      FillEnds(cfg, w, n, m, r, next);
    } else {
      var v, q := FillMoves(cfg, w, n, m, r, next);
      FillInOrder(cfg, v, n, m, q, next + 1);
    }
  }

  /** How many frames have been requested once the first `m` were played. */
  function Requested(cfg: Config, m: nat): nat
    requires m <= cfg.numFrames
  {
    if m == 0 then 0 else if m + cfg.prefetch < cfg.numFrames then m + cfg.prefetch else cfg.numFrames
  }

  lemma TakeInOrder(cfg: Config, w: Window, m: nat, r: nat)
    requires InOrder(cfg, w, m, r)
    ensures InOrder(cfg, Take(cfg, w, m), m + 1, if r == m then m + 1 else r)
  {}

  lemma PruneInOrder(cfg: Config, w: Window, m: nat, r: nat)
    requires InOrder(cfg, w, m + 1, r) && r <= m + cfg.backlog + 1
    ensures Prune(cfg, w, m) == w
  {}

  lemma RefillInOrder(cfg: Config, taken: Window, pruned: Window, m: nat, r: nat)
    requires 0 < cfg.prefetch <= cfg.backlog && pruned == Prune(cfg, taken, m)
    requires InOrder(cfg, taken, m + 1, r) && r <= Stop(cfg, m)
    ensures InOrder(cfg, Fill(cfg, pruned, m, m + 1), m + 1, Stop(cfg, m))
  {
    PruneInOrder(cfg, taken, m, r);
    FillInOrder(cfg, pruned, m, m + 1, r, m + 1);
  }

  lemma FetchInOrder(cfg: Config, w: Window, m: nat)
    requires cfg.prefetch <= cfg.backlog && m < cfg.numFrames && InOrder(cfg, w, m, Requested(cfg, m))
    ensures InOrder(cfg, Fetch(cfg, w, m), m + 1, Requested(cfg, m + 1))
  {
    var r := Requested(cfg, m);
    var r' := if r == m then m + 1 else r;
    TakeInOrder(cfg, w, m, r);
    if cfg.prefetch > 0 {
      RefillInOrder(cfg, Take(cfg, w, m), Prune(cfg, Take(cfg, w, m), m), m, r');
    }
  }

  lemma {:induction false} PlayInOrder(cfg: Config, m: nat)
    requires cfg.prefetch <= cfg.backlog && m <= cfg.numFrames
    ensures InOrder(cfg, Play(cfg, Range(m)), m, Requested(cfg, m))
  {
    if m > 0 {
      PlayInOrder(cfg, m - 1);
      assert Range(m)[..m - 1] == Range(m - 1);
      FetchInOrder(cfg, Play(cfg, Range(m - 1)), m - 1);
    }
  }

  /**
   Playing the whole clip in order issues exactly one request per frame, in order, cancels none and ends with nothing
   in flight, for every prefetch and backlog.
   */
  lemma WholeClipOnce(output: int, numFrames: nat, prefetch: int, backlog: Option<int>)
    ensures var w := Play(MakeConfig(output, numFrames, prefetch, backlog), Range(numFrames));
            && w.requests == seq(numFrames, f => FrameKey(output, f))
            && w.cancelled == {} && w.inflight == map[]
  {
    var cfg := MakeConfig(output, numFrames, prefetch, backlog);
    PlayInOrder(cfg, numFrames);
    InOrderSize(cfg, Play(cfg, Range(numFrames)), numFrames, numFrames);
  }

  /** The window after any sequence of calls, for any arguments of the constructor. */
  lemma WindowAfterEveryCall(output: int, numFrames: int, prefetch: int, backlog: Option<int>, ns: seq<int>)
    requires ns != []
    ensures var cfg := MakeConfig(output, numFrames, prefetch, backlog);
            var w, n := Play(cfg, ns), ns[|ns| - 1];
            if prefetch <= 0 then
              w.inflight == map[]
            else
              && InWindow(cfg, w, n) && |w.inflight| <= cfg.backlog
              && forall k | n < k <= n + prefetch && k < numFrames :: k in w.inflight
  {
    var cfg := MakeConfig(output, numFrames, prefetch, backlog);
    PlayKeeps(cfg, ns[..|ns| - 1]);
    FetchKeepsWindow(cfg, Play(cfg, ns[..|ns| - 1]), ns[|ns| - 1]);
  }
}
