/**
 `StreamRedirector` and the reference-counted logging hook. Redirectors are stacked by making each the current stream
 and the target of the next; `capture_streams` stacks one on stdout and one on stderr.
 */
module Redirect {

  datatype StreamName = Stdout | Stderr

  /** A stream of the process, or a redirector standing in for one. */
  datatype Stream<R> = Original(file: nat) | Redirected(via: R)

  datatype Redirector<R> = Redirector(name: StreamName, target: Stream<R>, installed: bool)

  datatype World<R(==)> = World(
    stdout: Stream<R>,
    stderr: Stream<R>,
    redirectors: map<R, Redirector<R>>,
    patchCount: nat,
    patched: bool)

  datatype StreamEvent<R> = StreamOutput(source: R, stream: StreamName, text: string)

  function Current<R>(w: World<R>, name: StreamName): Stream<R> {
    if name.Stdout? then w.stdout else w.stderr
  }

  function WithCurrent<R>(w: World<R>, name: StreamName, s: Stream<R>): World<R> {
    if name.Stdout? then w.(stdout := s) else w.(stderr := s)
  }

  function HookInstalled<R>(w: World<R>): World<R> {
    w.(patchCount := w.patchCount + 1, patched := w.patchCount == 0 || w.patched)
  }

  function HookUninstalled<R>(w: World<R>): World<R> {
    if w.patchCount == 0 then w
    else w.(patchCount := w.patchCount - 1, patched := w.patchCount != 1 && w.patched)
  }

  function Created<R>(w: World<R>, r: R, name: StreamName): World<R> {
    w.(redirectors := w.redirectors[r := Redirector(name, Current(w, name), false)])
  }

  function Installed<R>(w: World<R>, r: R): (v: World<R>)
    requires r in w.redirectors
    ensures v.redirectors.Keys == w.redirectors.Keys
  {
    var red := w.redirectors[r];
    if red.installed then w
    else
      var named := w.(redirectors := w.redirectors[r := Redirector(red.name, Current(w, red.name), true)]);
      HookInstalled(WithCurrent(named, red.name, Redirected(r)))
  }

  function Uninstalled<R>(w: World<R>, r: R): (v: World<R>)
    requires r in w.redirectors
    ensures v.redirectors.Keys == w.redirectors.Keys
  {
    var red := w.redirectors[r];
    if !red.installed then w
    else
      var freed := w.(redirectors := w.redirectors[r := red.(installed := false)]);
      HookUninstalled(WithCurrent(freed, red.name, red.target))
  }

  // ----- The objects

  /** What the redirectors share: `sys`, the hook with its counter, the logging flag, and the dispatched events. */
  class Process {
    var stdout: Stream<StreamRedirector>
    var stderr: Stream<StreamRedirector>
    var patchCount: nat
    var hookPatched: bool
    var inLogging: bool
    var files: map<nat, string> // what reached the original streams
    var events: seq<StreamEvent<StreamRedirector>>
    ghost var redirectors: set<StreamRedirector>

    ghost function State(): World<StreamRedirector>
      reads this, redirectors
    {
      World(stdout, stderr, map r | r in redirectors :: Redirector(r.name, r.target, r.installed),
            patchCount, hookPatched)
    }

    ghost predicate Valid()
      reads this
    {
      forall r :: r in redirectors ==> r.process == this
    }

    constructor ()
      ensures Valid()
      ensures State() == World(Original(1), Original(2), map[], 0, false)
      ensures files == map[] && events == [] && !inLogging
    {
      stdout, stderr := Original(1), Original(2);
      patchCount, hookPatched, inLogging := 0, false, false;
      files, events, redirectors := map[], [], {};
    }

    method InstallLoggingHook()
      modifies this`patchCount, this`hookPatched
      ensures State() == HookInstalled(old(State()))
    {
      if patchCount == 0 {
        hookPatched := true;
      }
      patchCount := patchCount + 1;
    }

    method UninstallLoggingHook()
      modifies this`patchCount, this`hookPatched
      ensures State() == HookUninstalled(old(State()))
    {
      if patchCount > 0 {
        patchCount := patchCount - 1;
        if patchCount == 0 {
          hookPatched := false;
        }
      }
    }

    /** A write to `sys.stdout` or `sys.stderr`, or to any stream found there earlier. */
    method WriteTo(s: Stream<StreamRedirector>, text: string, ghost chain: seq<StreamRedirector>, ghost file: nat)
      returns (written: nat)
      requires Valid() && Linked(State(), s, chain, file)
      modifies this`files, this`events
      ensures forall f :: Content(files, f) == Content(old(files), f) + if f == file then text else ""
      ensures events == old(events) + Emitted(old(State()), chain, text, inLogging)
      ensures written == |text|
      decreases |chain|, 1
    {
      match s
      case Original(f) =>
        files := files[f := Content(files, f) + text];
        written := |text|;
      case Redirected(r) =>
        written := r.Write(text, chain, file);
    }

    /** `Logger.callHandlers` with a handler that writes `text` to `s`, through the hook if it is patched. */
    method CallHandlers(s: Stream<StreamRedirector>, text: string, ghost chain: seq<StreamRedirector>, ghost file: nat)
      requires Valid() && Linked(State(), s, chain, file)
      modifies this`files, this`events, this`inLogging
      ensures forall f :: Content(files, f) == Content(old(files), f) + if f == file then text else ""
      ensures inLogging == old(inLogging)
      ensures events
              == old(events) + Emitted(old(State()), chain, text, old(inLogging) || old(hookPatched))
    {
      var token := inLogging;
      if hookPatched {
        inLogging := true;
      }
      assert State() == old(State());
      var _ := WriteTo(s, text, chain, file);
      inLogging := token;
    }
  }

  class StreamRedirector {
    const process: Process
    const name: StreamName
    var target: Stream<StreamRedirector>
    var installed: bool

    constructor (process: Process, name: StreamName)
      requires process.Valid()
      modifies process`redirectors
      ensures this.process == process && process.Valid()
      ensures process.redirectors == old(process.redirectors) + {this}
      ensures process.State() == Created(old(process.State()), this, name)
    {
      this.process, this.name, installed := process, name, false;
      target := if name.Stdout? then process.stdout else process.stderr;
      new;
      process.redirectors := process.redirectors + {this};
    }

    method Install()
      requires this in process.redirectors
      modifies this, process`stdout, process`stderr, process`patchCount, process`hookPatched
      ensures process.State() == Installed(old(process.State()), this)
    {
      if !installed {
        if name.Stdout? {
          target := process.stdout;
          process.stdout := Redirected(this);
        } else {
          target := process.stderr;
          process.stderr := Redirected(this);
        }
        installed := true;
        process.InstallLoggingHook();
      }
    }

    method Uninstall()
      requires this in process.redirectors
      modifies this, process`stdout, process`stderr, process`patchCount, process`hookPatched
      ensures process.State() == Uninstalled(old(process.State()), this)
    {
      if installed {
        if name.Stdout? {
          process.stdout := target;
        } else {
          process.stderr := target;
        }
        installed := false;
        process.UninstallLoggingHook();
      }
    }

    method Write(text: string, ghost chain: seq<StreamRedirector>, ghost file: nat)
      returns (written: nat)
      requires process.Valid() && Linked(process.State(), Redirected(this), chain, file)
      modifies process`files, process`events
      ensures forall f ::
                Content(process.files, f) == Content(old(process.files), f) + if f == file then text else ""
      ensures process.events
              == old(process.events) + Emitted(old(process.State()), chain, text, process.inLogging)
      ensures written == |text|
      decreases |chain|, 0
    {
      written := process.WriteTo(target, text, chain[1..], file);
      if text != "" && !process.inLogging {
        process.events := process.events + [StreamOutput(this, name, text)];
      }
    }
  }

  /** What has reached an original stream so far. */
  function Content(files: map<nat, string>, file: nat): string {
    if file in files then files[file] else ""
  }

  // ----- Writing through a stack

  /** From `s`, following targets through the redirectors of `chain`, one arrives at an original stream. */
  predicate Linked<R(==)>(w: World<R>, s: Stream<R>, chain: seq<R>, file: nat)
    ensures Linked(w, s, chain, file) ==> forall r :: r in chain ==> r in w.redirectors
    decreases |chain|
  {
    if chain == [] then s == Original(file)
    else s == Redirected(chain[0]) && chain[0] in w.redirectors
         && Linked(w, w.redirectors[chain[0]].target, chain[1..], file)
  }

  /** The target writes first, then the redirector dispatches its own event. */
  function Emitted<R>(w: World<R>, chain: seq<R>, text: string, logging: bool): seq<StreamEvent<R>>
    requires forall r :: r in chain ==> r in w.redirectors
    decreases |chain|
  {
    if chain == [] then []
    else
      Emitted(w, chain[1..], text, logging)
      + if text != "" && !logging then [StreamOutput(chain[0], w.redirectors[chain[0]].name, text)] else []
  }

  lemma {:induction false} EmittedInOrder<R>(w: World<R>, chain: seq<R>, text: string, logging: bool)
    requires forall r :: r in chain ==> r in w.redirectors
    ensures var events := Emitted(w, chain, text, logging);
            && |events| == (if text != "" && !logging then |chain| else 0)
            && forall j :: 0 <= j < |events| ==>
                 var r := chain[|chain| - 1 - j];
                 events[j] == StreamOutput(r, w.redirectors[r].name, text)
    decreases |chain|
  {
    if chain != [] {
      EmittedInOrder(w, chain[1..], text, logging);
    }
  }

  /** Only the targets of the redirectors on the way matter. */
  lemma {:induction false} LinkedFrame<R>(w: World<R>, v: World<R>, s: Stream<R>, chain: seq<R>, file: nat)
    requires Linked(w, s, chain, file)
    requires forall r :: r in chain ==> r in v.redirectors && v.redirectors[r].target == w.redirectors[r].target
    ensures Linked(v, s, chain, file)
    decreases |chain|
  {
    if chain != [] {
      LinkedFrame(w, v, w.redirectors[chain[0]].target, chain[1..], file);
    }
  }

  lemma {:induction false} LinkedUnique<R>(w: World<R>, s: Stream<R>, c: seq<R>, f: nat, d: seq<R>, g: nat)
    requires Linked(w, s, c, f) && Linked(w, s, d, g)
    ensures c == d && f == g
    decreases |c|
  {
    if c != [] {
      LinkedUnique(w, w.redirectors[c[0]].target, c[1..], f, d[1..], g);
      assert c == [c[0]] + c[1..] && d == [d[0]] + d[1..];
    }
  }

  lemma {:induction false} LinkedSuffix<R>(w: World<R>, s: Stream<R>, chain: seq<R>, file: nat, k: nat)
    requires Linked(w, s, chain, file) && k < |chain|
    ensures chain[k] in w.redirectors && Linked(w, w.redirectors[chain[k]].target, chain[k + 1..], file)
    decreases k
  {
    if k > 0 {
      LinkedSuffix(w, w.redirectors[chain[0]].target, chain[1..], file, k - 1);
      assert chain[1..][k..] == chain[k + 1..];
    }
  }

  // ----- The hook counts the installed redirectors, in whatever order they come and go

  datatype Step<R> = Create(r: R, name: StreamName) | Install(r: R) | Uninstall(r: R)

  predicate Possible<R>(w: World<R>, step: Step<R>) {
    if step.Create? then step.r !in w.redirectors else step.r in w.redirectors
  }

  function Act<R>(w: World<R>, step: Step<R>): World<R>
    requires Possible(w, step)
  {
    match step
    case Create(r, name) => Created(w, r, name)
    case Install(r) => Installed(w, r)
    case Uninstall(r) => Uninstalled(w, r)
  }

  predicate Run<R>(w: World<R>, steps: seq<Step<R>>)
    decreases |steps|
  {
    steps == [] || (Possible(w, steps[0]) && Run(Act(w, steps[0]), steps[1..]))
  }

  function After<R>(w: World<R>, steps: seq<Step<R>>): World<R>
    requires Run(w, steps)
    decreases |steps|
  {
    if steps == [] then w else After(Act(w, steps[0]), steps[1..])
  }

  function InstalledSet<R>(w: World<R>): set<R> {
    set r | r in w.redirectors && w.redirectors[r].installed
  }

  predicate HookCounts<R>(w: World<R>) {
    w.patchCount == |InstalledSet(w)| && (w.patched <==> InstalledSet(w) != {})
  }

  predicate Fresh<R>(w: World<R>) {
    w.stdout.Original? && w.stderr.Original? && w.redirectors == map[] && w.patchCount == 0 && !w.patched
  }

  lemma InstallAdds<R>(w: World<R>, r: R)
    requires r in w.redirectors
    ensures InstalledSet(Installed(w, r)) == InstalledSet(w) + {r}
  {}

  lemma UninstallRemoves<R>(w: World<R>, r: R)
    requires r in w.redirectors
    ensures InstalledSet(Uninstalled(w, r)) == InstalledSet(w) - {r}
  {
  }

  lemma CreateKeepsHook<R>(w: World<R>, r: R, name: StreamName)
    requires HookCounts(w) && r !in w.redirectors
    ensures HookCounts(Created(w, r, name))
  {
    assert InstalledSet(Created(w, r, name)) == InstalledSet(w);
  }

  lemma InstallKeepsHook<R>(w: World<R>, r: R)
    requires HookCounts(w) && r in w.redirectors
    ensures HookCounts(Installed(w, r))
  {
    var before := InstalledSet(w);
    InstallAdds(w, r);
    assert r in before <==> w.redirectors[r].installed;
    SetGrows(before, r);
  }

  lemma UninstallKeepsHook<R>(w: World<R>, r: R)
    requires HookCounts(w) && r in w.redirectors
    ensures HookCounts(Uninstalled(w, r))
  {
    var before := InstalledSet(w);
    UninstallRemoves(w, r);
    assert r in before <==> w.redirectors[r].installed;
    SetShrinks(before, r);
  }

  lemma SetGrows<R>(s: set<R>, r: R)
    ensures |s + {r}| == if r in s then |s| else |s| + 1
    ensures s + {r} != {} && (s == {} <==> |s| == 0)
  {
    assert r in s ==> s + {r} == s;
    assert r in s + {r};
  }

  lemma SetShrinks<R>(s: set<R>, r: R)
    ensures |s - {r}| == if r in s then |s| - 1 else |s|
    ensures (s - {r} == {} <==> |s - {r}| == 0) && (r !in s ==> s - {r} == s)
  {}

  lemma ActKeepsHook<R>(w: World<R>, step: Step<R>)
    requires HookCounts(w) && Possible(w, step)
    ensures HookCounts(Act(w, step))
  {
    match step
    case Create(r, name) => CreateKeepsHook(w, r, name);
    case Install(r) => InstallKeepsHook(w, r);
    case Uninstall(r) => UninstallKeepsHook(w, r);
  }

  lemma {:induction false} HookCountsInstalled<R>(w: World<R>, steps: seq<Step<R>>)
    requires HookCounts(w) && Run(w, steps)
    ensures HookCounts(After(w, steps))
    decreases |steps|
  {
    if steps != [] {
      ActKeepsHook(w, steps[0]);
      HookCountsInstalled(Act(w, steps[0]), steps[1..]);
    }
  }

  // ----- Well-nested runs

  /** The installed redirectors of a stream are exactly those on its chain, the last one installed first. */
  predicate Stacked<R(==)>(w: World<R>, name: StreamName, chain: seq<R>, file: nat) {
    && Linked(w, Current(w, name), chain, file)
    && (forall j, k :: 0 <= j < k < |chain| ==> chain[j] != chain[k])
    && (forall r :: r in w.redirectors ==>
          (r in chain <==> w.redirectors[r].installed && w.redirectors[r].name == name))
  }

  lemma InstalledStacks<R>(w: World<R>, r: R, name: StreamName, chain: seq<R>, file: nat)
    requires Stacked(w, name, chain, file) && r in w.redirectors && !w.redirectors[r].installed
    ensures Stacked(Installed(w, r), name, if w.redirectors[r].name == name then [r] + chain else chain, file)
  {
    var v := Installed(w, r);
    assert r !in chain;
    LinkedFrame(w, v, Current(w, name), chain, file);
    if w.redirectors[r].name == name {
      var longer := [r] + chain;
      assert longer[1..] == chain;
      assert Linked(v, Current(v, name), longer, file);
      forall q | q in v.redirectors
        ensures q in longer <==> v.redirectors[q].installed && v.redirectors[q].name == name
      {
        assert q in longer <==> q == r || q in chain;
      }
    }
  }

  lemma UninstalledUnstacks<R>(w: World<R>, r: R, name: StreamName, chain: seq<R>, file: nat)
    requires Stacked(w, name, chain, file) && r in w.redirectors && w.redirectors[r].installed
    requires Current(w, w.redirectors[r].name) == Redirected(r)
    ensures w.redirectors[r].name == name ==> chain != [] && chain[0] == r
    ensures Stacked(Uninstalled(w, r), name, if w.redirectors[r].name == name then chain[1..] else chain, file)
  {
    var v := Uninstalled(w, r);
    if w.redirectors[r].name == name {
      LinkedFrame(w, v, w.redirectors[r].target, chain[1..], file);
    } else {
      LinkedFrame(w, v, Current(w, name), chain, file);
    }
  }

  lemma CreatedStacks<R>(w: World<R>, r: R, of: StreamName, name: StreamName, chain: seq<R>, file: nat)
    requires Stacked(w, name, chain, file) && r !in w.redirectors
    ensures Stacked(Created(w, r, of), name, chain, file)
  {
    LinkedFrame(w, Created(w, r, of), Current(w, name), chain, file);
  }

  /** Uninstalling keeps the stack in order exactly when the redirector is the current stream. */
  lemma UninstallOnlyTheCurrent<R>(w: World<R>, r: R, name: StreamName, chain: seq<R>, file: nat)
    requires Stacked(w, name, chain, file)
    requires r in w.redirectors && w.redirectors[r].installed && w.redirectors[r].name == name
    ensures (exists c, f :: Stacked(Uninstalled(w, r), name, c, f)) <==> Current(w, name) == Redirected(r)
  {
    var v := Uninstalled(w, r);
    if Current(w, name) == Redirected(r) {
      UninstalledUnstacks(w, r, name, chain, file);
    } else if c, f :| Stacked(v, name, c, f) {
      var k :| 0 <= k < |chain| && chain[k] == r;
      assert k > 0 && chain[0] in c;
      LinkedSuffix(w, Current(w, name), chain, file, k);
      LinkedFrame(w, v, w.redirectors[r].target, chain[k + 1..], file);
      LinkedUnique(v, w.redirectors[r].target, c, f, chain[k + 1..], file);
      assert false;
    }
  }

  predicate Disciplined<R(==)>(w: World<R>, step: Step<R>)
    requires Possible(w, step)
  {
    step.Uninstall? && w.redirectors[step.r].installed ==>
      Current(w, w.redirectors[step.r].name) == Redirected(step.r)
  }

  predicate Nested<R(==)>(w: World<R>, steps: seq<Step<R>>)
    requires Run(w, steps)
    decreases |steps|
  {
    steps == [] || (Disciplined(w, steps[0]) && Nested(Act(w, steps[0]), steps[1..]))
  }

  lemma {:induction false} NestedStaysStacked<R>(w: World<R>, steps: seq<Step<R>>, name: StreamName, chain: seq<R>,
                                                 file: nat)
    returns (after: seq<R>)
    requires Run(w, steps) && Nested(w, steps) && Stacked(w, name, chain, file)
    ensures Stacked(After(w, steps), name, after, file)
    decreases |steps|
  {
    if steps == [] {
      return chain;
    }
    var v, next := Act(w, steps[0]), chain;
    match steps[0] {
      case Create(r, of) =>
        CreatedStacks(w, r, of, name, chain, file);
      case Install(r) =>
        if !w.redirectors[r].installed {
          InstalledStacks(w, r, name, chain, file);
          next := if w.redirectors[r].name == name then [r] + chain else chain;
        }
      case Uninstall(r) =>
        if w.redirectors[r].installed {
          UninstalledUnstacks(w, r, name, chain, file);
          next := if w.redirectors[r].name == name then chain[1..] else chain;
        }
    }
    after := NestedStaysStacked(v, steps[1..], name, next, file);
  }

  function InstalledFor<R>(w: World<R>, name: StreamName): set<R> {
    set r | r in w.redirectors && w.redirectors[r].installed && w.redirectors[r].name == name
  }

  lemma {:induction false} ChainSize<R>(chain: seq<R>)
    requires forall j, k :: 0 <= j < k < |chain| ==> chain[j] != chain[k]
    ensures |set r | r in chain| == |chain|
    decreases |chain|
  {
    if chain != [] {
      ChainSize(chain[1..]);
      assert (set r | r in chain) == {chain[0]} + set r | r in chain[1..];
    }
  }

  /**
   After a well-nested run of a fresh process: the original stream is back exactly when no redirector of that name is
   installed, and a write to the current stream reaches the original one through every installed redirector once. Each
   of them dispatches one event, the innermost first; none does while a record is being logged.
   */
  lemma NestedRedirection<R>(w: World<R>, steps: seq<Step<R>>, name: StreamName, text: string, logging: bool)
    returns (chain: seq<R>)
    requires Fresh(w) && Run(w, steps) && Nested(w, steps)
    ensures var v, file := After(w, steps), Current(w, name).file;
            && (Current(v, name) == Original(file) <==> InstalledFor(v, name) == {})
            && Linked(v, Current(v, name), chain, file)
            && (forall r :: r in chain <==> r in InstalledFor(v, name))
            && |chain| == |InstalledFor(v, name)|
            && |Emitted(v, chain, text, logging)| == (if text != "" && !logging then |InstalledFor(v, name)| else 0)
            && forall j :: 0 <= j < |Emitted(v, chain, text, logging)| ==>
                 Emitted(v, chain, text, logging)[j] == StreamOutput(chain[|chain| - 1 - j], name, text)
  {
    var v, file := After(w, steps), Current(w, name).file;
    chain := NestedStaysStacked(w, steps, name, [], file);
    ChainSize(chain);
    assert (set r | r in chain) == InstalledFor(v, name);
    EmittedInOrder(v, chain, text, logging);
    forall r | r in chain ensures v.redirectors[r].name == name {
    }
  }

  /** A record that a handler writes to a redirected stream is never dispatched a second time as stream output. */
  lemma LogRecordsAreNotEchoed<R>(w: World<R>, steps: seq<Step<R>>, name: StreamName, chain: seq<R>, file: nat,
                                  text: string)
    requires Fresh(w) && Run(w, steps)
    requires var v := After(w, steps); Stacked(v, name, chain, file)
    ensures Emitted(After(w, steps), chain, text, After(w, steps).patched) == []
  {
    var v := After(w, steps);
    assert InstalledSet(w) == {};
    HookCountsInstalled(w, steps);
    EmittedInOrder(v, chain, text, v.patched);
    assert chain != [] ==> chain[0] in InstalledSet(v);
  }

  // ----- `with` blocks, as in `capture_streams`

  /** Entering installs, leaving uninstalls. */
  datatype Block<R> = With(r: R, body: seq<Block<R>>)

  predicate Known<R>(blocks: seq<Block<R>>, known: set<R>)
    decreases blocks
  {
    blocks == [] || (blocks[0].r in known && Known(blocks[0].body, known) && Known(blocks[1..], known))
  }

  function Perform<R>(w: World<R>, blocks: seq<Block<R>>): (v: World<R>)
    requires Known(blocks, w.redirectors.Keys)
    ensures v.redirectors.Keys == w.redirectors.Keys
    decreases blocks
  {
    if blocks == [] then w
    else
      var inside := Perform(Installed(w, blocks[0].r), blocks[0].body);
      Perform(Uninstalled(inside, blocks[0].r), blocks[1..])
  }

  /** No block enters a redirector that is installed already, by the run before or by a block around it. */
  predicate Apart<R>(blocks: seq<Block<R>>, busy: set<R>)
    decreases blocks
  {
    blocks == [] ||
    (blocks[0].r !in busy && Apart(blocks[0].body, busy + {blocks[0].r}) && Apart(blocks[1..], busy))
  }

  /** The streams, the hook and what is installed are the same; so is every redirector in `busy`. */
  predicate SameAround<R>(w: World<R>, v: World<R>, busy: set<R>) {
    && v.stdout == w.stdout && v.stderr == w.stderr && v.patchCount == w.patchCount && v.patched == w.patched
    && v.redirectors.Keys == w.redirectors.Keys && InstalledSet(v) == InstalledSet(w)
    && forall r :: r in busy && r in w.redirectors ==> v.redirectors[r] == w.redirectors[r]
  }

  lemma OneBlockRestores<R>(w: World<R>, inside: World<R>, r: R, busy: set<R>)
    requires HookCounts(w) && InstalledSet(w) <= busy && r in w.redirectors && r !in busy
    requires SameAround(Installed(w, r), inside, busy + {r}) && HookCounts(inside)
    ensures SameAround(w, Uninstalled(inside, r), busy) && HookCounts(Uninstalled(inside, r))
  {
    assert r !in InstalledSet(w);
    InstallAdds(w, r);
    UninstallRemoves(inside, r);
    UninstallKeepsHook(inside, r);
    assert InstalledSet(Uninstalled(inside, r)) == InstalledSet(w);
    assert inside.redirectors[r] == Installed(w, r).redirectors[r];
  }

  /** Any nesting of `with` blocks gives back both original streams, the hook and its count. */
  lemma {:induction false} BlocksRestore<R>(w: World<R>, blocks: seq<Block<R>>, busy: set<R>)
    requires HookCounts(w) && InstalledSet(w) <= busy
    requires Known(blocks, w.redirectors.Keys) && Apart(blocks, busy)
    ensures SameAround(w, Perform(w, blocks), busy) && HookCounts(Perform(w, blocks))
    decreases blocks
  {
    if blocks != [] {
      var r, body := blocks[0].r, blocks[0].body;
      var entered := Installed(w, r);
      InstallKeepsHook(w, r);
      InstallAdds(w, r);
      BlocksRestore(entered, body, busy + {r});
      var inside := Perform(entered, body);
      OneBlockRestores(w, inside, r, busy);
      BlocksRestore(Uninstalled(inside, r), blocks[1..], busy);
    }
  }

  /** Out of order, a redirector may become its own target: a write to it would never end. */
  lemma OutOfOrderMakesALoop(w: World<int>)
    requires Fresh(w)
    ensures var steps := [Create(0, Stdout), Create(1, Stdout), Install(0), Install(1), Uninstall(0), Uninstall(1),
                          Install(0)];
            && Run(w, steps)
            && Current(After(w, steps), Stdout) == Redirected(0)
            && 0 in After(w, steps).redirectors && After(w, steps).redirectors[0].target == Redirected(0)
            && forall chain, file :: !Linked(After(w, steps), Redirected(0), chain, file)
  {
    var a := Created(w, 0, Stdout);
    var b := Created(a, 1, Stdout);
    var c := Installed(b, 0);
    var d := Installed(c, 1);
    var e := Uninstalled(d, 0);
    var f := Uninstalled(e, 1);
    var g := Installed(f, 0);
    assert g.redirectors[0].target == Redirected(0);
    var s7: seq<Step<int>> := [];
    var s6 := [Install(0)] + s7;
    var s5 := [Uninstall(1)] + s6;
    var s4 := [Uninstall(0)] + s5;
    var s3 := [Install(1)] + s4;
    var s2 := [Install(0)] + s3;
    var s1 := [Create(1, Stdout)] + s2;
    var s0 := [Create(0, Stdout)] + s1;
    Unfold(f, s6);
    Unfold(e, s5);
    Unfold(d, s4);
    Unfold(c, s3);
    Unfold(b, s2);
    Unfold(a, s1);
    Unfold(w, s0);
    assert s0 == [Create(0, Stdout), Create(1, Stdout), Install(0), Install(1), Uninstall(0), Uninstall(1),
                  Install(0)];
    forall chain, file ensures !Linked(g, Redirected(0), chain, file) {
      NoWayOut(g, chain, file);
    }
  }

  lemma Unfold<R>(w: World<R>, steps: seq<Step<R>>)
    requires steps != [] && Possible(w, steps[0]) && Run(Act(w, steps[0]), steps[1..])
    ensures Run(w, steps) && After(w, steps) == After(Act(w, steps[0]), steps[1..])
  {
  }

  lemma {:induction false} NoWayOut(w: World<int>, chain: seq<int>, file: nat)
    requires 0 in w.redirectors && w.redirectors[0].target == Redirected(0)
    ensures !Linked(w, Redirected(0), chain, file)
    decreases |chain|
  {
    if chain != [] {
      NoWayOut(w, chain[1..], file);
    }
  }
}
