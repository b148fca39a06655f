/**
 `ServerMetricsCollector`: per-client sessions and the rolling throughput window.
 Clock readings are arguments; each method is one critical section of the collector's lock.
 */
module Metrics {
  import opened Wire

  type Time = real
  type Identity = Bytes

  const IDLE_LIMIT: Time := 3600.0
  const MIN_SPAN: Time := 0.1

  // ----- Client sessions

  datatype Session = Session(active: nat, total: nat, lastActive: Time)

  type Sessions = map<Identity, Session>

  function Started(clients: Sessions, identity: Identity, now: Time): Sessions {
    var s := if identity in clients then clients[identity] else Session(0, 0, 0.0);
    clients[identity := Session(s.active + 1, s.total + 1, now)]
  }

  function Ended(clients: Sessions, identity: Identity, now: Time): Sessions {
    if identity in clients then
      var s := clients[identity];
      clients[identity := Session(if s.active == 0 then 0 else s.active - 1, s.total, now)]
    else
      clients
  }

  predicate Stale(s: Session, now: Time) {
    now - s.lastActive > IDLE_LIMIT && s.active == 0
  }

  function Evicted(clients: Sessions, now: Time): Sessions {
    map identity | identity in clients && !Stale(clients[identity], now) :: clients[identity]
  }

  /** Requests the collector believes to be running for a client. */
  function Active(clients: Sessions, identity: Identity): nat {
    if identity in clients then clients[identity].active else 0
  }

  /** A snapshot forgets exactly the clients for which nothing runs and nothing has started or ended for an hour. */
  lemma SnapshotForgets(clients: Sessions, now: Time, i: Identity)
    requires i in clients
    ensures i in Evicted(clients, now) <==> clients[i].active > 0 || now - clients[i].lastActive <= 3600.0
    ensures i in Evicted(clients, now) ==> Evicted(clients, now)[i] == clients[i]
    ensures Evicted(clients, now).Keys <= clients.Keys
  {}

  datatype RequestEvent = RequestStarted(identity: Identity, now: Time) | RequestEnded(identity: Identity, now: Time)

  function SessionsAfter(events: seq<RequestEvent>): Sessions {
    if events == [] then map[]
    else
      var before := SessionsAfter(events[..|events| - 1]);
      match events[|events| - 1]
      case RequestStarted(identity, now) => Started(before, identity, now)
      case RequestEnded(identity, now) => Ended(before, identity, now)
  }

  /** How many requests of this client the events start. */
  function Starts(events: seq<RequestEvent>, i: Identity): nat {
    if events == [] then 0
    else
      var last := events[|events| - 1];
      Starts(events[..|events| - 1], i) + if last.RequestStarted? && last.identity == i then 1 else 0
  }

  /** The events at and behind `k` that are about this client are those at `k` alone. */
  predicate LastOf(events: seq<RequestEvent>, i: Identity, k: nat) {
    k < |events| && events[k].identity == i && forall j :: k < j < |events| ==> events[j].identity != i
  }

  /**
   Between snapshots a client has a session as soon as it has started a request; the session counts all of them and
   knows the time of the client's last event, an end included.
   */
  lemma {:induction false} SessionsFollowTheEvents(events: seq<RequestEvent>, i: Identity, k: nat)
    ensures i in SessionsAfter(events) <==> Starts(events, i) > 0
    ensures i in SessionsAfter(events) ==> SessionsAfter(events)[i].total == Starts(events, i)
    ensures i in SessionsAfter(events) && LastOf(events, i, k) ==> SessionsAfter(events)[i].lastActive == events[k].now
  {
    if events != [] {
      SessionsFollowTheEvents(events[..|events| - 1], i, k);
    }
  }

  // ----- Throughput window

  datatype WindowEntry = WindowEntry(timestamp: Time, frames: nat, compressedBytes: nat)

  /** `_prune_window`: pops from the front while the front is too old. */
  function Pruned(window: seq<WindowEntry>, cutoff: Time): seq<WindowEntry> {
    if window != [] && window[0].timestamp < cutoff then Pruned(window[1..], cutoff) else window
  }

  /** The completions that are not too old, wherever they stand. */
  function Recent(history: seq<WindowEntry>, cutoff: Time): seq<WindowEntry> {
    if history == [] then []
    else
      var rest := Recent(history[..|history| - 1], cutoff);
      var last := history[|history| - 1];
      if last.timestamp < cutoff then rest else rest + [last]
  }

  function TotalFrames(entries: seq<WindowEntry>): nat {
    if entries == [] then 0 else entries[0].frames + TotalFrames(entries[1..])
  }

  function TotalBytes(entries: seq<WindowEntry>): nat {
    if entries == [] then 0 else entries[0].compressedBytes + TotalBytes(entries[1..])
  }

  /** Frames per second and bits per second over a window that ends now. */
  function Rates(window: seq<WindowEntry>, now: Time): (Time, Time) {
    if window == [] then (0.0, 0.0)
    else
      var age := now - window[0].timestamp;
      var span := if age < MIN_SPAN then MIN_SPAN else age;
      (TotalFrames(window) as real / span, TotalBytes(window) as real * 8.0 / span)
  }

  /** The sums run over every entry once. */
  lemma {:induction false} TotalsAdd(a: seq<WindowEntry>, b: seq<WindowEntry>, e: WindowEntry)
    ensures TotalFrames(a + b) == TotalFrames(a) + TotalFrames(b) && TotalFrames([e]) == e.frames
    ensures TotalBytes(a + b) == TotalBytes(a) + TotalBytes(b) && TotalBytes([e]) == e.compressedBytes
    decreases |a|
  {
    if a == [] {
      assert a + b == b;
    } else {
      assert (a + b)[1..] == a[1..] + b;
      TotalsAdd(a[1..], b, e);
    }
  }

  lemma QuotientTimes(x: real, y: real)
    requires y > 0.0
    ensures x / y * y == x
  {}

  /**
   Frames and bits, eight a byte, per second since the first entry of the window; a window younger than a tenth of a
   second counts as that old, and an empty one gives zero.
   */
  lemma RatesSay(window: seq<WindowEntry>, now: Time)
    ensures var (fps, bps) := Rates(window, now);
            if window == [] then fps == bps == 0.0
            else if now - window[0].timestamp < 0.1 then
              fps == 10.0 * TotalFrames(window) as real && bps == 80.0 * TotalBytes(window) as real
            else
              && fps * (now - window[0].timestamp) == TotalFrames(window) as real
              && bps * (now - window[0].timestamp) == TotalBytes(window) as real * 8.0
  {
    if window != [] && now - window[0].timestamp >= 0.1 {
      QuotientTimes(TotalFrames(window) as real, now - window[0].timestamp);
      QuotientTimes(TotalBytes(window) as real * 8.0, now - window[0].timestamp);
    }
  }

  datatype ServerStats = ServerStats(
    completedFrames: nat,
    framesPerSecond: Time,
    bitsPerSecond: Time,
    compressionRatio: real,
    clients: Sessions)

  class ServerMetricsCollector {
    const windowSeconds: Time
    var completedFrames: nat
    var uncompressedBytes: nat
    var compressedBytes: nat
    var throughputWindow: seq<WindowEntry>
    var clients: Sessions

    constructor (windowSeconds: Time)
      ensures this.windowSeconds == windowSeconds
      ensures completedFrames == uncompressedBytes == compressedBytes == 0
      ensures throughputWindow == [] && clients == map[]
    {
      this.windowSeconds := windowSeconds;
      completedFrames, uncompressedBytes, compressedBytes := 0, 0, 0;
      throughputWindow, clients := [], map[];
    }

    method OnRequestStart(identity: Identity, now: Time)
      modifies this`clients
      ensures clients == Started(old(clients), identity, now)
      ensures identity in clients && clients[identity].lastActive == now
      ensures clients[identity].active == Active(old(clients), identity) + 1
      ensures clients[identity].total
              == 1 + if identity in old(clients) then old(clients)[identity].total else 0
      ensures clients - {identity} == old(clients) - {identity}
    {
      if identity !in clients {
        clients := clients[identity := Session(0, 0, 0.0)];
      }
      var s := clients[identity];
      clients := clients[identity := Session(s.active + 1, s.total + 1, now)];
    }

    method OnRequestEnd(identity: Identity, now: Time)
      modifies this`clients
      ensures clients == Ended(old(clients), identity, now)
      ensures clients.Keys == old(clients).Keys && clients - {identity} == old(clients) - {identity}
      ensures identity in clients ==>
                && clients[identity].lastActive == now && clients[identity].total == old(clients)[identity].total
                && (old(clients)[identity].active > 0 ==>
                      clients[identity].active == old(clients)[identity].active - 1)
                && (old(clients)[identity].active == 0 ==> clients[identity].active == 0)
    {
      if identity in clients {
        var s := clients[identity];
        clients := clients[identity := s.(active := if s.active >= 1 then s.active - 1 else 0, lastActive := now)];
      }
    }

    method PruneWindow(now: Time)
      modifies this`throughputWindow
      ensures throughputWindow == Pruned(old(throughputWindow), now - windowSeconds)
    {
      var cutoff := now - windowSeconds;
      while throughputWindow != [] && throughputWindow[0].timestamp < cutoff
        invariant Pruned(throughputWindow, cutoff) == Pruned(old(throughputWindow), cutoff)
        decreases |throughputWindow|
      {
        throughputWindow := throughputWindow[1..];
      }
    }

    method OnFrameCompleted(uncompressed: nat, compressed: nat, now: Time)
      modifies this`completedFrames, this`uncompressedBytes, this`compressedBytes, this`throughputWindow
      ensures completedFrames == old(completedFrames) + 1
      ensures uncompressedBytes == old(uncompressedBytes) + uncompressed
      ensures compressedBytes == old(compressedBytes) + compressed
      ensures throughputWindow
              == Pruned(old(throughputWindow) + [WindowEntry(now, 1, compressed)], now - windowSeconds)
    {
      completedFrames := completedFrames + 1;
      uncompressedBytes := uncompressedBytes + uncompressed;
      compressedBytes := compressedBytes + compressed;
      throughputWindow := throughputWindow + [WindowEntry(now, 1, compressed)];
      PruneWindow(now);
    }

    method Snapshot(now: Time) returns (stats: ServerStats)
      modifies this`throughputWindow, this`clients
      ensures throughputWindow == Pruned(old(throughputWindow), now - windowSeconds)
      ensures clients == Evicted(old(clients), now)
      ensures stats.clients == clients && stats.completedFrames == completedFrames
      ensures (stats.framesPerSecond, stats.bitsPerSecond) == Rates(throughputWindow, now)
      ensures stats.compressionRatio
              == if compressedBytes > 0 then uncompressedBytes as real / compressedBytes as real else 1.0
    {
      PruneWindow(now);
      var frames, bytes, k := 0, 0, 0;
      while k < |throughputWindow|
        invariant k <= |throughputWindow|
        invariant frames + TotalFrames(throughputWindow[k..]) == TotalFrames(throughputWindow)
        invariant bytes + TotalBytes(throughputWindow[k..]) == TotalBytes(throughputWindow)
      {
        assert throughputWindow[k..][1..] == throughputWindow[k + 1..];
        frames := frames + throughputWindow[k].frames;
        bytes := bytes + throughputWindow[k].compressedBytes;
        k := k + 1;
      }
      var fps, bps := 0.0, 0.0;
      if throughputWindow != [] {
        var age := now - throughputWindow[0].timestamp;
        var span := if age < MIN_SPAN then MIN_SPAN else age;
        fps, bps := frames as real / span, bytes as real * 8.0 / span;
      }
      var ratio := if compressedBytes > 0 then uncompressedBytes as real / compressedBytes as real else 1.0;

      var stale: set<Identity> := {};
      var kept: Sessions := map[];
      var todo := clients.Keys;
      while todo != {}
        invariant todo <= clients.Keys && clients == old(clients)
        invariant throughputWindow == Pruned(old(throughputWindow), now - windowSeconds)
        invariant forall i :: i in stale <==> i in clients && i !in todo && Stale(clients[i], now)
        invariant forall i :: i in kept <==> i in clients && i !in todo && !Stale(clients[i], now)
        invariant forall i :: i in kept ==> kept[i] == clients[i]
        decreases todo
      {
        var i :| i in todo;
        todo := todo - {i};
        if Stale(clients[i], now) {
          stale := stale + {i};
        } else {
          kept := kept[i := clients[i]];
        }
      }
      clients := clients - stale;
      stats := ServerStats(completedFrames, fps, bps, ratio, kept);
    }
  }

  // ----- The window over a whole run

  datatype Event = FrameCompleted(now: Time, compressedBytes: nat) | SnapshotTaken(now: Time)

  predicate NonDecreasing(events: seq<Event>) {
    forall j, k :: 0 <= j < k < |events| ==> events[j].now <= events[k].now
  }

  /** The deque after a run, pruned at every event with that event's own cutoff. */
  function WindowAfter(events: seq<Event>, windowSeconds: Time): seq<WindowEntry> {
    if events == [] then []
    else
      var before := WindowAfter(events[..|events| - 1], windowSeconds);
      match events[|events| - 1]
      case FrameCompleted(now, bytes) => Pruned(before + [WindowEntry(now, 1, bytes)], now - windowSeconds)
      case SnapshotTaken(now) => Pruned(before, now - windowSeconds)
  }

  /** Every completion of the run. */
  function Completions(events: seq<Event>): seq<WindowEntry> {
    if events == [] then []
    else
      var before := Completions(events[..|events| - 1]);
      match events[|events| - 1]
      case FrameCompleted(now, bytes) => before + [WindowEntry(now, 1, bytes)]
      case SnapshotTaken(_) => before
  }

  predicate Sorted(entries: seq<WindowEntry>) {
    forall j, k :: 0 <= j < k < |entries| ==> entries[j].timestamp <= entries[k].timestamp
  }

  lemma {:induction false} CompletionsSorted(events: seq<Event>)
    requires NonDecreasing(events)
    ensures Sorted(Completions(events))
    ensures forall e :: e in Completions(events) ==> events != [] && e.timestamp <= events[|events| - 1].now
  {
    if events != [] {
      CompletionsSorted(events[..|events| - 1]);
    }
  }

  lemma {:induction false} RecentIsSubsequence(history: seq<WindowEntry>, cutoff: Time)
    ensures forall e :: e in Recent(history, cutoff) <==> e in history && e.timestamp >= cutoff
  {
    if history != [] {
      RecentIsSubsequence(history[..|history| - 1], cutoff);
    }
  }

  lemma {:induction false} RecentKeepsAll(entries: seq<WindowEntry>, cutoff: Time)
    requires forall e :: e in entries ==> e.timestamp >= cutoff
    ensures Recent(entries, cutoff) == entries
  {
    if entries != [] {
      RecentKeepsAll(entries[..|entries| - 1], cutoff);
    }
  }

  lemma {:induction false} RecentConcat(a: seq<WindowEntry>, b: seq<WindowEntry>, cutoff: Time)
    ensures Recent(a + b, cutoff) == Recent(a, cutoff) + Recent(b, cutoff)
    decreases |b|
  {
    if b == [] {
      assert a + b == a;
    } else {
      assert (a + b)[..|a + b| - 1] == a + b[..|b| - 1];
      RecentConcat(a, b[..|b| - 1], cutoff);
    }
  }

  /** An entry that is too old stands behind one that is not, which shields it. */
  predicate OldBehindRecent(entries: seq<WindowEntry>, cutoff: Time) {
    exists j, k :: 0 <= j < k < |entries| && entries[j].timestamp >= cutoff && entries[k].timestamp < cutoff
  }

  lemma OldBehindFirst(entries: seq<WindowEntry>, cutoff: Time)
    requires entries != [] && entries[0].timestamp < cutoff
    ensures OldBehindRecent(entries, cutoff) <==> OldBehindRecent(entries[1..], cutoff)
  {
    var rest := entries[1..];
    if j, k :| 0 <= j < k < |entries| && entries[j].timestamp >= cutoff && entries[k].timestamp < cutoff {
      assert rest[j - 1] == entries[j] && rest[k - 1] == entries[k];
    }
    if j, k :| 0 <= j < k < |rest| && rest[j].timestamp >= cutoff && rest[k].timestamp < cutoff {
      assert entries[j + 1] == rest[j] && entries[k + 1] == rest[k];
    }
  }

  lemma RecentFirst(entries: seq<WindowEntry>, cutoff: Time)
    requires entries != []
    ensures entries[0].timestamp < cutoff ==> Recent(entries, cutoff) == Recent(entries[1..], cutoff)
  {
    RecentConcat([entries[0]], entries[1..], cutoff);
    assert entries == [entries[0]] + entries[1..];
    assert [entries[0]][..0] == [];
  }

  /** Popping from the front is filtering exactly when nothing is shielded. */
  lemma {:induction false} PrunedIsRecent(entries: seq<WindowEntry>, cutoff: Time)
    ensures Pruned(entries, cutoff) == Recent(entries, cutoff) <==> !OldBehindRecent(entries, cutoff)
    decreases |entries|
  {
    if entries == [] {
    } else if entries[0].timestamp < cutoff {
      PrunedIsRecent(entries[1..], cutoff);
      OldBehindFirst(entries, cutoff);
      RecentFirst(entries, cutoff);
    } else if k :| 0 <= k < |entries| && entries[k].timestamp < cutoff {
      RecentIsSubsequence(entries, cutoff);
      assert entries[k] in entries && OldBehindRecent(entries, cutoff);
    } else {
      RecentKeepsAll(entries, cutoff);
    }
  }

  /** What an earlier cutoff has removed, a later one would have removed as well. */
  lemma {:induction false} PrunedTwice(past: seq<WindowEntry>, tail: seq<WindowEntry>, early: Time, late: Time)
    requires early <= late
    ensures Pruned(Pruned(past, early) + tail, late) == Pruned(past + tail, late)
    decreases |past|
  {
    if past != [] && past[0].timestamp < early {
      PrunedTwice(past[1..], tail, early, late);
      assert (past + tail)[1..] == past[1..] + tail;
    }
  }

  /** What the last event adds to the history. */
  function Added(event: Event): seq<WindowEntry> {
    match event
    case FrameCompleted(now, bytes) => [WindowEntry(now, 1, bytes)]
    case SnapshotTaken(_) => []
  }

  lemma LastEvent(events: seq<Event>, windowSeconds: Time)
    requires events != []
    ensures var init, last := events[..|events| - 1], events[|events| - 1];
            && Completions(events) == Completions(init) + Added(last)
            && WindowAfter(events, windowSeconds)
               == Pruned(WindowAfter(init, windowSeconds) + Added(last), last.now - windowSeconds)
  {
    var before := WindowAfter(events[..|events| - 1], windowSeconds);
    assert before + [] == before;
  }

  /** One event: the deque so far may stand for the history, whatever the cutoffs were, up to now. */
  lemma OneMoreEvent(window: seq<WindowEntry>, history: seq<WindowEntry>, added: seq<WindowEntry>, now: Time,
                     late: Time)
    requires Pruned(window, late) == Pruned(history, late) && now <= late
    ensures Pruned(Pruned(window + added, now), late) == Pruned(history + added, late)
  {
    PrunedTwice(window + added, [], now, late);
    assert Pruned(window + added, now) + [] == Pruned(window + added, now);
    assert window + added + [] == window + added;
    PrunedTwice(window, added, late, late);
    PrunedTwice(history, added, late, late);
  }

  lemma {:induction false} WindowStandsForHistory(events: seq<Event>, windowSeconds: Time, late: Time)
    requires forall e :: e in events ==> e.now - windowSeconds <= late
    ensures Pruned(WindowAfter(events, windowSeconds), late) == Pruned(Completions(events), late)
    decreases |events|
  {
    if events != [] {
      var init, last := events[..|events| - 1], events[|events| - 1];
      WindowStandsForHistory(init, windowSeconds, late);
      LastEvent(events, windowSeconds);
      assert last in events;
      OneMoreEvent(WindowAfter(init, windowSeconds), Completions(init), Added(last), last.now - windowSeconds, late);
    }
  }

  /** No earlier reading of the clock is ahead of the last one. */
  predicate LastIsLatest(events: seq<Event>)
    requires events != []
  {
    forall e :: e in events ==> e.now <= events[|events| - 1].now
  }

  lemma PrunedIsStable(entries: seq<WindowEntry>, cutoff: Time)
    ensures Pruned(Pruned(entries, cutoff), cutoff) == Pruned(entries, cutoff)
  {
    PrunedTwice(entries, [], cutoff, cutoff);
    assert Pruned(entries, cutoff) + [] == Pruned(entries, cutoff);
    assert entries + [] == entries;
  }

  /**
   When the last reading is not behind any earlier one, the deque is the whole history pruned once, and it is the
   filter of the history exactly when no completion that is too old stands behind one that is not. Readings in between
   may go back and forth.
   */
  lemma WindowIsFilterExactly(events: seq<Event>, windowSeconds: Time)
    requires events != [] && LastIsLatest(events)
    ensures var cutoff := events[|events| - 1].now - windowSeconds;
            && WindowAfter(events, windowSeconds) == Pruned(Completions(events), cutoff)
            && (WindowAfter(events, windowSeconds) == Recent(Completions(events), cutoff)
                <==> !OldBehindRecent(Completions(events), cutoff))
  {
    var init, last := events[..|events| - 1], events[|events| - 1];
    var cutoff := last.now - windowSeconds;
    WindowStandsForHistory(events, windowSeconds, cutoff);
    LastEvent(events, windowSeconds);
    PrunedIsStable(WindowAfter(init, windowSeconds) + Added(last), cutoff);
    PrunedIsRecent(Completions(events), cutoff);
  }

  /** In particular whenever the clock never runs backwards. */
  lemma WindowIsFilter(events: seq<Event>, windowSeconds: Time)
    requires events != [] && NonDecreasing(events)
    ensures WindowAfter(events, windowSeconds)
            == Recent(Completions(events), events[|events| - 1].now - windowSeconds)
  {
    CompletionsSorted(events);
    WindowIsFilterExactly(events, windowSeconds);
  }

  /** Going back in time breaks it: the front entry shields older ones behind it. */
  lemma WindowNeedsMonotoneClock()
    ensures var events := [FrameCompleted(10.0, 1), FrameCompleted(4.0, 1), SnapshotTaken(10.0)];
            WindowAfter(events, 2.0) != Recent(Completions(events), 10.0 - 2.0)
  {
    var first, second := WindowEntry(10.0, 1, 1), WindowEntry(4.0, 1, 1);
    var e1, e2 := [FrameCompleted(10.0, 1)], [FrameCompleted(10.0, 1), FrameCompleted(4.0, 1)];
    var events := e2 + [SnapshotTaken(10.0)];
    assert events == [FrameCompleted(10.0, 1), FrameCompleted(4.0, 1), SnapshotTaken(10.0)];
    assert e1[..0] == [] && e2[..1] == e1 && events[..2] == e2;
    assert WindowAfter(e1, 2.0) == Pruned([first], 8.0) == [first];
    assert WindowAfter(e2, 2.0) == Pruned([first, second], 2.0) == [first, second];
    RecentIsSubsequence(Completions(events), 8.0);
    assert second in WindowAfter(events, 2.0);
  }
}
