/**
 `ScriptRunner`: loading, reloading and tearing down a script, and the three stores that describe its outputs. Each
 method is one critical section of the runner's lock; what the script, the file system and the disposals do is an
 argument. `_dispatch_executor` drives the runner on behalf of a client.
 */
module Runner {
  import opened Wire
  import opened Handlers

  // ----- Outputs and the stores

  datatype Clip = Clip(node: nat, width: nat, height: nat, numFrames: nat, formatId: nat)

  datatype ClipInfo = ClipInfo(width: nat, height: nat, numFrames: nat, formatId: nat, name: string)

  datatype OutputItem = OutputItem(index: int, name: string, info: ClipInfo)

  datatype Output = Video(clip: Clip) | NotVideo

  datatype Entry = Entry(index: int, output: Output)

  predicate Distinct(entries: seq<Entry>) {
    forall j, k :: 0 <= j < k < |entries| ==> entries[j].index != entries[k].index
  }

  /** A dictionary of outputs, in its iteration order. */
  type OutputDict = entries: seq<Entry> | Distinct(entries) witness []

  /** `ClipInfo.from_clip` refuses clips of variable format. */
  function FromClip(clip: Clip, name: string): Option<ClipInfo> {
    if clip.formatId == 0 then None
    else Some(ClipInfo(clip.width, clip.height, clip.numFrames, clip.formatId, name))
  }

  function Digits(n: nat): string {
    if n < 10 then ["0123456789"[n]] else Digits(n / 10) + ["0123456789"[n % 10]]
  }

  function DefaultName(index: int): string {
    "Output " + if index < 0 then "-" + Digits(-index) else Digits(index)
  }

  /** A registered name counts unless it is empty. */
  function NameOf(names: map<int, string>, index: int): string {
    if index in names && names[index] != "" then names[index] else DefaultName(index)
  }

  datatype OutputStores = OutputStores(
    clips: map<int, Clip>,
    infos: map<int, ClipInfo>,
    items: seq<OutputItem>)

  const NO_OUTPUTS := OutputStores(map[], map[], [])

  function Added(s: OutputStores, index: int, clip: Clip, info: ClipInfo): OutputStores {
    OutputStores(s.clips[index := clip], s.infos[index := info], s.items + [OutputItem(index, info.name, info)])
  }

  /** The loop of `_extract_outputs`; false when a clip is refused on the way. */
  function Extract(s: OutputStores, entries: seq<Entry>, names: map<int, string>): (OutputStores, bool)
    decreases |entries|
  {
    if entries == [] then (s, true)
    else
      match entries[0].output
      case NotVideo => Extract(s, entries[1..], names)
      case Video(clip) =>
        var info := FromClip(clip, NameOf(names, entries[0].index));
        if info.None? then (s, false)
        else Extract(Added(s, entries[0].index, clip, info.value), entries[1..], names)
  }

  predicate AllVideos(entries: seq<Entry>) {
    forall k :: 0 <= k < |entries| ==> entries[k].output.Video?
  }

  /** What `from_clips` accepts: clips under any distinct indices. */
  type ClipDict = entries: OutputDict | AllVideos(entries) witness []

  /** `dict(enumerate(clips))`. */
  function Enumerated(videos: seq<Clip>): (dict: ClipDict)
    ensures |dict| == |videos|
    ensures forall k :: 0 <= k < |videos| ==> dict[k] == Entry(k, Video(videos[k]))
  {
    seq(|videos|, k requires 0 <= k < |videos| => Entry(k, Video(videos[k])))
  }

  // ----- The runner

  datatype Environment = Unset | Borrowed | Managed

  /** An exception, as the clauses of `_dispatch_executor` see it. */
  datatype Error = Error(kind: Kind, printable: bool)

  /** How disposing of the old script and its environment goes. */
  datatype Disposal = Clean | ScriptRaises(error: Error) | EnvironmentRaises(error: Error)

  /** How executing the new script goes, up to reading its outputs. */
  datatype Launch =
    | NotLaunched(error: Error)
    | RunRaises(environment: Environment, error: Error)
    | OutputsRaise(environment: Environment, error: Error)
    | Ran(environment: Environment, outputs: OutputDict, names: map<int, string>)

  datatype Failure =
    | FileMissing
    | ScriptNotLoaded
    | DisposalRaised(error: Error)
    | LaunchRaised(error: Error)
    | UnsupportedFormat

  datatype LoadResult = Loaded(items: seq<OutputItem>) | Failed(failure: Failure)

  /** Scripts are numbered in the order they are launched; `disposed` is history. */
  datatype RunnerState = RunnerState(
    stores: OutputStores,
    scriptPath: Option<string>,
    chdir: bool,
    script: Option<nat>,
    environment: Environment,
    launched: nat,
    disposed: set<nat>)

  const NEW := RunnerState(NO_OUTPUTS, None, true, None, Unset, 0, {})

  /** `teardown_environment`; false when a disposal raises. The stores go first. */
  function TornDown(s: RunnerState, d: Disposal): (r: (RunnerState, bool))
    ensures !r.1 ==> !d.Clean?
  {
    var cleared := s.(stores := NO_OUTPUTS);
    if s.script.Some? && d.ScriptRaises? then (cleared, false)
    else
      var freed := if s.script.None? then cleared
                   else cleared.(script := None, disposed := s.disposed + {s.script.value});
      if s.environment.Managed? && d.EnvironmentRaises? then (freed, false)
      else (freed.(environment := Unset), true)
  }

  function NotDisposed(d: Disposal): LoadResult
    requires !d.Clean?
  {
    Failed(DisposalRaised(d.error))
  }

  function Launched(s: RunnerState, environment: Environment): RunnerState {
    s.(script := Some(s.launched), launched := s.launched + 1, environment := environment)
  }

  /** What `load_script` and `load_code` have in common after the teardown. */
  function Begin(s: RunnerState, l: Launch): (RunnerState, LoadResult) {
    match l
    case NotLaunched(error) => (s, Failed(LaunchRaised(error)))
    case RunRaises(environment, error) => (Launched(s, environment), Failed(LaunchRaised(error)))
    case OutputsRaise(environment, error) => (Launched(s, environment), Failed(LaunchRaised(error)))
    case Ran(environment, outputs, names) =>
      var (stores, ok) := Extract(s.stores, outputs, names);
      (Launched(s, environment).(stores := stores), if ok then Loaded(stores.items) else Failed(UnsupportedFormat))
  }

  datatype Call =
    | LoadScript(path: string, isFile: bool, changeDir: bool, disposal: Disposal, launch: Launch)
    | LoadCode(disposal: Disposal, launch: Launch)
    | Reload(override: Option<bool>, isFile: bool, disposal: Disposal, launch: Launch)
    | Teardown(disposal: Disposal)

  /** `load_script`: a missing file is noticed before anything is torn down. */
  function LoadFrom(s: RunnerState, path: string, isFile: bool, chdir: bool, d: Disposal, l: Launch):
    (RunnerState, LoadResult)
  {
    if !isFile then (s, Failed(FileMissing))
    else
      var (torn, ok) := TornDown(s, d);
      if ok then Begin(torn.(scriptPath := Some(path), chdir := chdir), l) else (torn, NotDisposed(d))
  }

  /** The state after a call, and what it returns or raises. */
  function Act(s: RunnerState, call: Call): (RunnerState, LoadResult) {
    match call
    case LoadScript(path, isFile, chdir, d, l) => LoadFrom(s, path, isFile, chdir, d, l)
    case LoadCode(d, l) =>
      var (torn, ok) := TornDown(s, d);
      if ok then Begin(torn.(scriptPath := None), l) else (torn, NotDisposed(d))
    case Reload(override, isFile, d, l) =>
      if s.scriptPath.None? then (s, Failed(ScriptNotLoaded))
      else
        var chdir := if override.None? then s.chdir else override.value;
        LoadFrom(s, s.scriptPath.value, isFile, chdir, d, l)
    case Teardown(d) =>
      var (torn, ok) := TornDown(s, d);
      (torn, if ok then Loaded([]) else NotDisposed(d))
  }

  /** `from_clips`: every clip under its own index and default name. */
  function FromVideos(videos: ClipDict, environment: Environment): (RunnerState, bool) {
    var (stores, ok) := Extract(NO_OUTPUTS, videos, map[]);
    (NEW.(environment := environment, stores := stores), ok)
  }

  class ScriptRunner {
    var clips: map<int, Clip>
    var clipInfos: map<int, ClipInfo>
    var outputItems: seq<OutputItem>
    var scriptPath: Option<string>
    var chdir: bool
    var script: Option<nat>
    var environment: Environment
    var launched: nat // numbers the scripts
    ghost var disposed: set<nat>

    ghost function Stores(): OutputStores
      reads this
    {
      OutputStores(clips, clipInfos, outputItems)
    }

    ghost function State(): RunnerState
      reads this
    {
      RunnerState(Stores(), scriptPath, chdir, script, environment, launched, disposed)
    }

    constructor ()
      ensures State() == NEW
    {
      clips, clipInfos, outputItems := map[], map[], [];
      scriptPath, chdir, script, environment := None, true, None, Unset;
      launched, disposed := 0, {};
    }

    method TeardownEnvironment(d: Disposal) returns (ok: bool)
      modifies this
      ensures (State(), ok) == TornDown(old(State()), d)
    {
      clips, clipInfos, outputItems := map[], map[], [];
      if script.Some? {
        if d.ScriptRaises? {
          return false;
        }
        disposed := disposed + {script.value};
        script := None;
      }
      if environment.Managed? && d.EnvironmentRaises? {
        return false;
      }
      environment := Unset;
      ok := true;
    }

    method ExtractOutputs(outputs: OutputDict, names: map<int, string>) returns (ok: bool)
      modifies this`clips, this`clipInfos, this`outputItems
      ensures (Stores(), ok) == Extract(old(Stores()), outputs, names)
    {
      var k := 0;
      while k < |outputs|
        invariant k <= |outputs|
        invariant Extract(Stores(), outputs[k..], names) == Extract(old(Stores()), outputs, names)
      {
        var idx, output := outputs[k].index, outputs[k].output;
        assert outputs[k..][1..] == outputs[k + 1..];
        if output.Video? {
          var info := FromClip(output.clip, NameOf(names, idx));
          if info.None? {
            return false;
          }
          clips := clips[idx := output.clip];
          clipInfos := clipInfos[idx := info.value];
          outputItems := outputItems + [OutputItem(idx, info.value.name, info.value)];
        }
        k := k + 1;
      }
      ok := true;
    }

    method Execute(l: Launch) returns (r: LoadResult)
      modifies this
      ensures (State(), r) == Begin(old(State()), l)
    {
      if l.NotLaunched? {
        return Failed(LaunchRaised(l.error));
      }
      script := Some(launched);
      launched := launched + 1;
      environment := l.environment;
      match l
      case RunRaises(_, error) =>
        r := Failed(LaunchRaised(error));
      case OutputsRaise(_, error) =>
        r := Failed(LaunchRaised(error));
      case Ran(_, outputs, names) =>
        var ok := ExtractOutputs(outputs, names);
        r := if ok then Loaded(outputItems) else Failed(UnsupportedFormat);
    }

    method Load(path: string, isFile: bool, changeDir: bool, d: Disposal, l: Launch) returns (r: LoadResult)
      modifies this
      ensures (State(), r) == LoadFrom(old(State()), path, isFile, changeDir, d, l)
    {
      if !isFile {
        return Failed(FileMissing);
      }
      var ok := TeardownEnvironment(d);
      if !ok {
        return NotDisposed(d);
      }
      scriptPath, chdir := Some(path), changeDir;
      r := Execute(l);
    }

    method LoadCodeString(d: Disposal, l: Launch) returns (r: LoadResult)
      modifies this
      ensures (State(), r) == Act(old(State()), LoadCode(d, l))
    {
      var ok := TeardownEnvironment(d);
      if !ok {
        return NotDisposed(d);
      }
      scriptPath := None;
      r := Execute(l);
    }

    method ReloadScript(override: Option<bool>, isFile: bool, d: Disposal, l: Launch) returns (r: LoadResult)
      modifies this
      ensures (State(), r) == Act(old(State()), Reload(override, isFile, d, l))
    {
      if scriptPath.None? {
        return Failed(ScriptNotLoaded);
      }
      var changeDir := if override.None? then chdir else override.value;
      r := Load(scriptPath.value, isFile, changeDir, d, l);
    }

    /** When a clip is refused the caller gets the exception instead of the runner. */
    static method FromClips(videos: ClipDict, environment: Environment) returns (runner: ScriptRunner, ok: bool)
      ensures fresh(runner)
      ensures (runner.State(), ok) == FromVideos(videos, environment)
    {
      runner := new ScriptRunner();
      runner.environment := environment;
      ok := runner.ExtractOutputs(videos, map[]);
    }

    /** The same for a sequence, whose positions become the indices. */
    static method FromClipList(videos: seq<Clip>, environment: Environment) returns (runner: ScriptRunner, ok: bool)
      ensures fresh(runner)
      ensures (runner.State(), ok) == FromVideos(Enumerated(videos), environment)
    {
      runner, ok := FromClips(Enumerated(videos), environment);
    }

    /** Finds a clip exactly for the indices the list of outputs shows, and the one described there. */
    method GetClip(index: int) returns (clip: Option<Clip>)
      ensures clip == ClipAt(Stores(), index)
      ensures Agree(Stores()) ==> (clip.Some? <==> Listed(outputItems, index))
      ensures Agree(Stores()) && clip.Some? ==>
                clipInfos[index] in InfosOf(outputItems)
                && SaysOf(clipInfos[index], clip.value, clipInfos[index].name)
    {
      ListedIsFound(Stores(), index);
      if index !in clips {
        return None;
      }
      clip := Some(clips[index]);
    }

    /** Finds the info that the list of outputs shows under this index. */
    method GetClipInfo(index: int) returns (info: Option<ClipInfo>)
      ensures info == InfoAt(Stores(), index)
      ensures Agree(Stores()) ==>
                forall item :: item in outputItems && item.index == index ==> info == Some(item.info)
      ensures Agree(Stores()) ==> (info.Some? <==> Listed(outputItems, index))
    {
      ListedIsFound(Stores(), index);
      if index !in clipInfos {
        return None;
      }
      info := Some(clipInfos[index]);
    }
  }

  function ClipAt(s: OutputStores, index: int): Option<Clip> {
    if index in s.clips then Some(s.clips[index]) else None
  }

  function InfoAt(s: OutputStores, index: int): Option<ClipInfo> {
    if index in s.infos then Some(s.infos[index]) else None
  }

  function InfosOf(items: seq<OutputItem>): (infos: seq<ClipInfo>)
    ensures forall item :: item in items ==> item.info in infos
  {
    if items == [] then [] else [items[0].info] + InfosOf(items[1..])
  }

  // ----- What extraction leaves in the stores

  predicate Refused(e: Entry) {
    e.output.Video? && e.output.clip.formatId == 0
  }

  /** Where extraction stops: at the first refused clip, or at the end. */
  function Stop(entries: seq<Entry>): (n: nat)
    ensures n <= |entries|
    ensures n < |entries| ==> Refused(entries[n])
    ensures forall k :: 0 <= k < n ==> !Refused(entries[k])
  {
    if entries == [] || Refused(entries[0]) then 0 else 1 + Stop(entries[1..])
  }

  function VideoIndices(entries: seq<Entry>): seq<int> {
    if entries == [] then []
    else (if entries[0].output.Video? then [entries[0].index] else []) + VideoIndices(entries[1..])
  }

  function Indices(items: seq<OutputItem>): (indices: seq<int>)
    ensures |indices| == |items| && forall j :: 0 <= j < |items| ==> indices[j] == items[j].index
  {
    seq(|items|, j requires 0 <= j < |items| => items[j].index)
  }

  predicate FreshFor(s: OutputStores, entries: seq<Entry>) {
    forall k :: 0 <= k < |entries| ==> entries[k].index !in s.clips
  }

  predicate NoIndexTwice(items: seq<OutputItem>) {
    forall j, k :: 0 <= j < k < |items| ==> items[j].index != items[k].index
  }

  /** The info says about the clip what the clip is, field by field, and gives it this name. */
  predicate SaysOf(info: ClipInfo, clip: Clip, name: string) {
    && clip.formatId != 0 && info.formatId == clip.formatId
    && info.width == clip.width && info.height == clip.height && info.numFrames == clip.numFrames
    && info.name == name
  }

  /** The item describes the clip stored under its index. */
  predicate Describes(s: OutputStores, item: OutputItem) {
    && item.index in s.clips && item.index in s.infos
    && item.info == s.infos[item.index] && SaysOf(item.info, s.clips[item.index], item.name)
  }

  predicate Listed(items: seq<OutputItem>, index: int) {
    exists j :: 0 <= j < |items| && items[j].index == index
  }

  /** The three stores speak of the same outputs, each listed once and described truly. */
  predicate Agree(s: OutputStores) {
    && s.clips.Keys == s.infos.Keys
    && NoIndexTwice(s.items)
    && (forall j :: 0 <= j < |s.items| ==> Describes(s, s.items[j]))
    && (forall index :: index in s.clips ==> Listed(s.items, index))
  }

  /** The output is served under its own index, with its own clip, and with the registered name unless that is empty. */
  predicate Serves(s: OutputStores, e: Entry, names: map<int, string>)
    requires e.output.Video?
  {
    && e.index in s.clips && s.clips[e.index] == e.output.clip
    && e.index in s.infos
    && SaysOf(s.infos[e.index], e.output.clip,
              if e.index in names && names[e.index] != "" then names[e.index] else DefaultName(e.index))
  }

  /** The stores after a video that is not refused. */
  function Taken(s: OutputStores, e: Entry, names: map<int, string>): OutputStores
    requires e.output.Video? && !Refused(e)
  {
    Added(s, e.index, e.output.clip, FromClip(e.output.clip, NameOf(names, e.index)).value)
  }

  lemma ListedIsFound(s: OutputStores, index: int)
    ensures Agree(s) ==>
              && (index in s.clips <==> Listed(s.items, index))
              && (index in s.infos <==> Listed(s.items, index))
              && (forall item :: item in s.items && item.index == index ==> Describes(s, item))
              && (index in s.clips ==>
                    s.infos[index] in InfosOf(s.items)
                    && SaysOf(s.infos[index], s.clips[index], s.infos[index].name))
  {
    if Agree(s) && Listed(s.items, index) {
      var j :| 0 <= j < |s.items| && s.items[j].index == index;
      assert Describes(s, s.items[j]) && s.items[j] in s.items;
    }
  }

  /**
   The three getters tell one story: a clip is found exactly under the indices that are listed, an info exactly there
   too, and it has the width, height, length and format of that very clip and its listed name.
   */
  lemma GettersAgree(start: RunnerState, calls: seq<Call>, index: int)
    requires Start(start)
    ensures var s := After(start, calls).stores;
            && (ClipAt(s, index).Some? <==> Listed(s.items, index))
            && (InfoAt(s, index).Some? <==> Listed(s.items, index))
            && forall item :: item in s.items && item.index == index ==>
                 InfoAt(s, index) == Some(item.info) && SaysOf(item.info, ClipAt(s, index).value, item.name)
  {
    StoresAlwaysAgree(start, calls);
    ListedIsFound(After(start, calls).stores, index);
  }

  lemma AddedAgrees(s: OutputStores, index: int, clip: Clip, info: ClipInfo)
    requires Agree(s) && index !in s.clips && FromClip(clip, info.name) == Some(info)
    ensures Agree(Added(s, index, clip, info))
  {
    var t := Added(s, index, clip, info);
    assert t.items[|s.items|].index == index;
    forall j | 0 <= j < |s.items| ensures Describes(t, t.items[j]) {
      assert Describes(s, s.items[j]);
    }
    forall j, k | 0 <= j < k < |t.items| ensures t.items[j].index != t.items[k].index {
      assert Describes(s, s.items[j]);
    }
    forall i | i in t.clips ensures Listed(t.items, i) {
      if i != index {
        var j :| 0 <= j < |s.items| && s.items[j].index == i;
        assert t.items[j].index == i;
      }
    }
  }

  /** Wherever extraction stops, the stores agree. */
  lemma {:induction false} ExtractAgrees(s: OutputStores, entries: seq<Entry>, names: map<int, string>)
    requires Agree(s) && Distinct(entries) && FreshFor(s, entries)
    ensures Agree(Extract(s, entries, names).0)
    decreases |entries|
  {
    if entries != [] {
      var e := entries[0];
      if e.output.Video? {
        var info := FromClip(e.output.clip, NameOf(names, e.index));
        if info.Some? {
          AddedAgrees(s, e.index, e.output.clip, info.value);
          ExtractAgrees(Added(s, e.index, e.output.clip, info.value), entries[1..], names);
        }
      } else {
        ExtractAgrees(s, entries[1..], names);
      }
    }
  }

  lemma {:induction false} ExtractKeeps(s: OutputStores, entries: seq<Entry>, names: map<int, string>, index: int)
    requires forall k :: 0 <= k < |entries| ==> entries[k].index != index
    ensures index in Extract(s, entries, names).0.clips <==> index in s.clips
    ensures index in s.clips ==> Extract(s, entries, names).0.clips[index] == s.clips[index]
    ensures index in Extract(s, entries, names).0.infos <==> index in s.infos
    ensures index in s.infos ==> Extract(s, entries, names).0.infos[index] == s.infos[index]
    decreases |entries|
  {
    if entries != [] {
      var e := entries[0];
      if e.output.Video? {
        var info := FromClip(e.output.clip, NameOf(names, e.index));
        if info.Some? {
          ExtractKeeps(Added(s, e.index, e.output.clip, info.value), entries[1..], names, index);
        }
      } else {
        ExtractKeeps(s, entries[1..], names, index);
      }
    }
  }

  /**
   Every video output before the first refused clip is served under its own index and name, and the extraction
   succeeds exactly when no clip is refused.
   */
  lemma {:induction false} ExtractsTheVideos(s: OutputStores, entries: seq<Entry>, names: map<int, string>)
    requires Distinct(entries)
    ensures Extract(s, entries, names).1 <==> Stop(entries) == |entries|
    ensures forall k :: 0 <= k < Stop(entries) && entries[k].output.Video? ==>
                          Serves(Extract(s, entries, names).0, entries[k], names)
    decreases |entries|
  {
    if entries != [] && !Refused(entries[0]) {
      var e, rest := entries[0], entries[1..];
      var t := if e.output.Video? then Taken(s, e, names) else s;
      ExtractsTheVideos(t, rest, names);
      if e.output.Video? {
        ExtractKeeps(t, rest, names, e.index);
      }
      var final := Extract(s, entries, names).0;
      forall k | 0 <= k < Stop(entries) && entries[k].output.Video? ensures Serves(final, entries[k], names) {
        if k > 0 {
          assert entries[k] == rest[k - 1];
        }
      }
    }
  }

  /** The list of outputs follows the order of the dictionary and leaves out what is not video. */
  lemma {:induction false} ExtractsInOrder(s: OutputStores, entries: seq<Entry>, names: map<int, string>)
    ensures Indices(Extract(s, entries, names).0.items) == Indices(s.items) + VideoIndices(entries[..Stop(entries)])
    decreases |entries|
  {
    if entries == [] || Refused(entries[0]) {
      assert entries[..0] == [];
    } else {
      var e, rest := entries[0], entries[1..];
      assert entries[..Stop(entries)][1..] == rest[..Stop(rest)];
      if e.output.Video? {
        assert Indices(Taken(s, e, names).items) == Indices(s.items) + [e.index];
        ExtractsInOrder(Taken(s, e, names), rest, names);
      } else {
        ExtractsInOrder(s, rest, names);
      }
    }
  }

  // ----- Whole runs

  /** Every launched script has been disposed of, but for the one the runner holds. */
  predicate OneScriptAlive(s: RunnerState) {
    && (s.script.Some? ==> s.script.value < s.launched && s.script.value !in s.disposed)
    && (forall k :: 0 <= k < s.launched ==> k in s.disposed || s.script == Some(k))
    && (forall k :: k in s.disposed ==> k < s.launched)
  }

  /** A client that finds a clip also finds the environment to render it in. */
  predicate Renderable(s: RunnerState) {
    s.stores.clips != map[] ==> s.environment != Unset
  }

  /** Scripts bring an environment with them. */
  predicate RealLaunch(l: Launch) {
    !l.NotLaunched? ==> l.environment != Unset
  }

  predicate RealCall(call: Call) {
    !call.Teardown? ==> RealLaunch(call.launch)
  }

  predicate Sound(s: RunnerState) {
    Agree(s.stores) && OneScriptAlive(s)
  }

  lemma BeginKeeps(s: RunnerState, l: Launch)
    requires Sound(s) && s.script.None? && s.stores == NO_OUTPUTS
    ensures Sound(Begin(s, l).0)
    ensures RealLaunch(l) ==> Renderable(Begin(s, l).0)
  {
    if l.Ran? {
      ExtractAgrees(s.stores, l.outputs, l.names);
    }
  }

  lemma TornDownKeeps(s: RunnerState, d: Disposal)
    requires Sound(s)
    ensures var (torn, ok) := TornDown(s, d);
            && Sound(torn) && torn.stores == NO_OUTPUTS && torn.scriptPath == s.scriptPath
            && (ok ==> torn.script.None? && torn.environment == Unset && torn.launched == s.launched)
            && (ok ==> forall k :: 0 <= k < torn.launched ==> k in torn.disposed)
  {
  }

  lemma LoadFromKeeps(s: RunnerState, path: string, isFile: bool, chdir: bool, d: Disposal, l: Launch)
    requires Sound(s)
    ensures Sound(LoadFrom(s, path, isFile, chdir, d, l).0)
    ensures Renderable(s) && RealLaunch(l) ==> Renderable(LoadFrom(s, path, isFile, chdir, d, l).0)
  {
    TornDownKeeps(s, d);
    var (torn, ok) := TornDown(s, d);
    if isFile && ok {
      BeginKeeps(torn.(scriptPath := Some(path), chdir := chdir), l);
    }
  }

  lemma ActKeeps(s: RunnerState, call: Call)
    requires Sound(s)
    ensures Sound(Act(s, call).0)
    ensures Renderable(s) && RealCall(call) ==> Renderable(Act(s, call).0)
  {
    match call
    case LoadScript(path, isFile, chdir, d, l) =>
      LoadFromKeeps(s, path, isFile, chdir, d, l);
    case LoadCode(d, l) =>
      TornDownKeeps(s, d);
      var (torn, ok) := TornDown(s, d);
      if ok {
        BeginKeeps(torn.(scriptPath := None), l);
      }
    case Reload(override, isFile, d, l) =>
      if s.scriptPath.Some? {
        var chdir := if override.None? then s.chdir else override.value;
        LoadFromKeeps(s, s.scriptPath.value, isFile, chdir, d, l);
      }
    case Teardown(d) =>
      TornDownKeeps(s, d);
  }

  function After(start: RunnerState, calls: seq<Call>): RunnerState {
    if calls == [] then start else Act(After(start, calls[..|calls| - 1]), calls[|calls| - 1]).0
  }

  /** What the callers saw: each call's result, in order. */
  function Results(start: RunnerState, calls: seq<Call>): (results: seq<LoadResult>)
    ensures |results| == |calls|
  {
    if calls == [] then []
    else
      var init := calls[..|calls| - 1];
      Results(start, init) + [Act(After(start, init), calls[|calls| - 1]).1]
  }

  /** How a runner begins: empty, or with clips handed to `from_clips`. */
  ghost predicate Start(s: RunnerState) {
    s == NEW || exists videos: ClipDict, env :: (s, true) == FromVideos(videos, env)
  }

  lemma StartIsSound(s: RunnerState)
    requires Start(s)
    ensures Sound(s)
  {
    if s != NEW {
      var videos: ClipDict, env :| (s, true) == FromVideos(videos, env);
      ExtractAgrees(NO_OUTPUTS, videos, map[]);
    }
  }

  /** In every reachable state, failing loads included, the stores agree and no script is left behind. */
  lemma {:induction false} StoresAlwaysAgree(start: RunnerState, calls: seq<Call>)
    requires Start(start)
    ensures Agree(After(start, calls).stores)
    ensures OneScriptAlive(After(start, calls))
    ensures Renderable(start) && (forall c :: c in calls ==> RealCall(c)) ==> Renderable(After(start, calls))
  {
    if calls == [] {
      StartIsSound(start);
    } else {
      var init := calls[..|calls| - 1];
      StoresAlwaysAgree(start, init);
      ActKeeps(After(start, init), calls[|calls| - 1]);
    }
  }

  // ----- Which file a reload reads

  /** The runner took the new source: the file was there and the old script could be disposed of. */
  predicate Accepted(r: LoadResult) {
    r.Failed? ==> !r.failure.FileMissing? && !r.failure.DisposalRaised?
  }

  /** What one call and its result say about the file, given what was known before. */
  function FileAfter(call: Call, r: LoadResult, before: Option<string>): Option<string> {
    if call.LoadScript? && Accepted(r) then Some(call.path)
    else if call.LoadCode? && Accepted(r) then None
    else before
  }

  /** By the calls and their results alone: the last file accepted, unless accepted code came later. */
  function LastFile(calls: seq<Call>, results: seq<LoadResult>): Option<string>
    requires |calls| == |results|
    decreases |calls|
  {
    if calls == [] then None
    else
      var n := |calls| - 1;
      FileAfter(calls[n], results[n], LastFile(calls[..n], results[..n]))
  }

  lemma FileAfterCall(s: RunnerState, call: Call)
    ensures Act(s, call).0.scriptPath == FileAfter(call, Act(s, call).1, s.scriptPath)
  {}

  lemma {:induction false} ReloadReadsTheLastFile(start: RunnerState, calls: seq<Call>)
    requires Start(start)
    ensures After(start, calls).scriptPath == LastFile(calls, Results(start, calls))
  {
    if calls == [] {
      assert start.scriptPath == None;
    } else {
      var n := |calls| - 1;
      ReloadReadsTheLastFile(start, calls[..n]);
      FileAfterCall(After(start, calls[..n]), calls[n]);
      assert Results(start, calls)[..n] == Results(start, calls[..n]);
    }
  }

  // ----- On behalf of clients

  /** How executing the load ended, for the handler that waits for it. */
  function AsOutcome(r: LoadResult): Outcome {
    if r.Loaded? then Done
    else
      match r.failure
      case FileMissing => Raised(MissingFile, true)
      case ScriptNotLoaded => Raised(MissingFile, true)
      case DisposalRaised(error) => Raised(error.kind, error.printable)
      case LaunchRaised(error) => Raised(error.kind, error.printable)
      case UnsupportedFormat => Raised(Unlisted, true)
  }

  /** How the two attempts to answer end, should they be made. */
  datatype Sending = Sending(result: Outcome, error: Outcome)

  /** What the handler of a load does to the runner, and the status it sends, when nothing else runs meanwhile. */
  function Dispatched(s: RunnerState, payload: Decoding, call: Call, sending: Sending, d: Disposal):
    (RunnerState, Option<StatusCode>)
  {
    match payload
    case Invalid => (s, if sending.error.Done? then Some(INVALID_PAYLOAD) else None)
    case DecodingRaised => (s, None)
    case Decoded =>
      var (acted, r) := Act(s, call);
      if r.Loaded? && sending.result.Done? then (acted, Some(OK))
      else
        var o := if r.Loaded? then sending.result else AsOutcome(r);
        if !Described(o) then (acted, None)
        else
          var (torn, ok) := TornDown(acted, d);
          var status := if o.kind.MissingFile? then NOT_FOUND else ERROR;
          (torn, if ok && sending.error.Done? then Some(status) else None)
  }

  method DispatchExecutor(runner: ScriptRunner, payload: Decoding, call: Call, sending: Sending, d: Disposal)
    returns (reply: Option<StatusCode>)
    requires !call.Teardown?
    modifies runner
    ensures (runner.State(), reply) == Dispatched(old(runner.State()), payload, call, sending, d)
  {
    if payload.Invalid? {
      return if sending.error.Done? then Some(INVALID_PAYLOAD) else None;
    } else if payload.DecodingRaised? {
      return None;
    }
    var r: LoadResult;
    match call {
      case LoadScript(path, isFile, chdir, disposal, launch) =>
        r := runner.Load(path, isFile, chdir, disposal, launch);
      case LoadCode(disposal, launch) =>
        r := runner.LoadCodeString(disposal, launch);
      case Reload(override, isFile, disposal, launch) =>
        r := runner.ReloadScript(override, isFile, disposal, launch);
    }
    var o := if r.Loaded? then sending.result else AsOutcome(r);
    if o.Done? {
      return Some(OK);
    } else if !Described(o) {
      return None;
    }
    var status := if o.kind.MissingFile? then NOT_FOUND else ERROR;
    var ok := runner.TeardownEnvironment(d);
    reply := if ok && sending.error.Done? then Some(status) else None;
  }

  /** The awaits that follow once executing a load, or answering it, ended with `o`. */
  function Aftermath(o: Outcome, teardown: Outcome, error: Outcome): seq<Outcome> {
    if o.Done? || !Described(o) then [] else [teardown] + if teardown.Done? then [error] else []
  }

  /** How the awaits of the handler end in `Dispatched`. */
  function Awaits(s: RunnerState, call: Call, sending: Sending, d: Disposal): seq<Outcome> {
    var (acted, r) := Act(s, call);
    var teardown := if TornDown(acted, d).1 then Done else Raised(d.error.kind, d.error.printable);
    if r.Loaded? then [Done] + ([sending.result] + Aftermath(sending.result, teardown, sending.error))
    else [AsOutcome(r)] + Aftermath(AsOutcome(r), teardown, sending.error)
  }

  lemma AftermathIsALife(h: Handler, o: Outcome, teardown: Outcome, error: Outcome)
    requires (h.Executing? && o.Raised?) || h.SendingResult?
    ensures var awaits := [o] + Aftermath(o, teardown, error);
            && Life(h, awaits)
            && Replies(h, awaits)
               == if o.Done? then [OK]
                  else if !Described(o) || teardown.Raised? || error.Raised? then []
                  else [if o.kind.MissingFile? then NOT_FOUND else ERROR]
  {
    LifeUnfolds(h, o, Aftermath(o, teardown, error));
    if o.Raised? && Described(o) {
      var failed := LoadFailed(o);
      LifeUnfolds(failed, teardown, if teardown.Done? then [error] else []);
      if teardown.Done? {
        LifeUnfolds(SendingLoadError(failed.failure), error, []);
      }
    }
  }

  /** The reply is the one of the handler that `Handlers` describes. */
  lemma DispatchIsTheHandler(s: RunnerState, call: Call, sending: Sending, d: Disposal)
    ensures var reply := Dispatched(s, Decoding.Decoded, call, sending, d).1;
            && Life(Executing, Awaits(s, call, sending, d))
            && Replies(Executing, Awaits(s, call, sending, d)) == if reply.Some? then [reply.value] else []
  {
    var (acted, r) := Act(s, call);
    var teardown := if TornDown(acted, d).1 then Done else Raised(d.error.kind, d.error.printable);
    if r.Loaded? {
      AftermathIsALife(SendingResult, sending.result, teardown, sending.error);
      LifeUnfolds(Executing, Done, [sending.result] + Aftermath(sending.result, teardown, sending.error));
    } else {
      AftermathIsALife(Executing, AsOutcome(r), teardown, sending.error);
    }
  }

  /**
   The client reads OK exactly when the load succeeded and its reply went out, and then the outputs it was promised
   are the ones served. After a load that failed nothing is served, whatever else went wrong. A load whose reply could
   not be sent is torn down, unless that failure cannot be described. A request that could not be parsed leaves the
   runner alone, and the file a reload will read survives every failure.
   */
  lemma LoadThroughTheServer(s: RunnerState, payload: Decoding, call: Call, sending: Sending, d: Disposal)
    requires Sound(s) && !call.Teardown?
    ensures var (t, reply) := Dispatched(s, payload, call, sending, d);
            var (acted, r) := Act(s, call);
            && (reply == Some(OK) <==> payload.Decoded? && r.Loaded? && sending.result.Done?)
            && (reply == Some(OK) ==> t.stores.items == r.items)
            && (payload.Decoded? && r.Failed? ==> t.stores == NO_OUTPUTS)
            && (payload.Decoded? && r.Loaded? && sending.result.Raised? ==>
                  (t.stores == NO_OUTPUTS <==> Described(sending.result) || r.items == []))
            && (!payload.Decoded? ==> t == s)
            && (payload.Decoded? ==> t.scriptPath == acted.scriptPath)
            && Sound(t)
  {
    if payload.Decoded? {
      var (acted, r) := Act(s, call);
      ActKeeps(s, call);
      TornDownKeeps(acted, d);
      NoItemsNoOutputs(acted.stores);
      FailedLoadIsEmptyOrDescribed(s, call);
    }
  }

  lemma NoItemsNoOutputs(s: OutputStores)
    requires Agree(s)
    ensures s.items == [] <==> s == NO_OUTPUTS
  {
    if s.items == [] {
      assert forall index :: !Listed(s.items, index);
      assert forall index :: index in s.clips ==> Listed(s.items, index);
      assert forall index :: index !in s.clips.Keys;
      assert s.infos.Keys == s.clips.Keys == {};
    }
  }

  /** Exceptions without a text come from the script and its disposal only, when the stores are empty. */
  lemma FailedLoadIsEmptyOrDescribed(s: RunnerState, call: Call)
    requires !call.Teardown?
    ensures var (acted, r) := Act(s, call);
            && (r.Failed? && !Described(AsOutcome(r)) ==> acted.stores == NO_OUTPUTS)
            && (r.Loaded? ==> acted.stores.items == r.items)
  {}

  // ----- Several workers

  /** The call empties the stores before anything else. */
  predicate Clears(s: RunnerState, call: Call) {
    match call
    case LoadScript(_, isFile, _, _, _) => isFile
    case LoadCode(_, _) => true
    case Reload(_, isFile, _, _) => s.scriptPath.Some? && isFile
    case Teardown(_) => true
  }

  lemma WithoutClearing(s: RunnerState, call: Call)
    requires !Clears(s, call)
    ensures Act(s, call).0 == s
  {
  }

  /** What a clearing call leaves: the outputs of its own script, or nothing. */
  function OutputsOf(call: Call, r: LoadResult): OutputStores {
    if !call.Teardown? && Accepted(r) && call.launch.Ran?
    then Extract(NO_OUTPUTS, call.launch.outputs, call.launch.names).0
    else NO_OUTPUTS
  }

  lemma ClearingDecides(s: RunnerState, call: Call)
    requires Clears(s, call)
    ensures Act(s, call).0.stores == OutputsOf(call, Act(s, call).1)
  {}

  /** The call at `k` is the last one so far that emptied the stores. */
  predicate LastClearing(start: RunnerState, calls: seq<Call>, k: nat) {
    && k < |calls|
    && Clears(After(start, calls[..k]), calls[k])
    && forall j :: k < j < |calls| ==> !Clears(After(start, calls[..j]), calls[j])
  }

  /**
   Outputs of two scripts never mix: what is served in any reachable state comes from the last call that emptied the
   stores, and from it alone.
   */
  lemma {:induction false} OutputsComeFromOneLoad(start: RunnerState, calls: seq<Call>, k: nat)
    requires LastClearing(start, calls, k)
    ensures After(start, calls).stores == OutputsOf(calls[k], Results(start, calls)[k])
    decreases |calls|
  {
    var n := |calls| - 1;
    var init := calls[..n];
    if k == n {
      ClearingDecides(After(start, init), calls[n]);
    } else {
      assert init[..k] == calls[..k];
      forall j | k < j < n ensures !Clears(After(start, init[..j]), init[j]) {
        assert init[..j] == calls[..j];
      }
      OutputsComeFromOneLoad(start, init, k);
      assert !Clears(After(start, calls[..n]), calls[n]);
      WithoutClearing(After(start, init), calls[n]);
    }
  }

  /** The clean-up of a failed load is a section of its own: it may wipe out a load that succeeded in between. */
  lemma CleanUpWipesAnotherLoad(launch: Launch)
    requires launch.Ran? && Stop(launch.outputs) == |launch.outputs| && launch.outputs != []
    requires launch.outputs[0].output.Video?
    ensures var mine := Reload(None, true, Clean, NotLaunched(Error(Unlisted, true)));
            var theirs := LoadCode(Clean, launch);
            && Results(NEW, [mine, theirs])[0].Failed?
            && Results(NEW, [mine, theirs])[1].Loaded?
            && After(NEW, [mine, theirs]).stores != NO_OUTPUTS
            && After(NEW, [mine, theirs, Teardown(Clean)]).stores == NO_OUTPUTS
  {
    var mine, theirs := Reload(None, true, Clean, NotLaunched(Error(Unlisted, true))), LoadCode(Clean, launch);
    var one, two, three := [mine], [mine, theirs], [mine, theirs, Teardown(Clean)];
    assert one[..0] == [] && two[..1] == one && three[..2] == two;
    assert After(NEW, one) == NEW;
    ExtractsTheVideos(NO_OUTPUTS, launch.outputs, launch.names);
    assert launch.outputs[0].index in After(NEW, two).stores.clips;
  }

  /** The script a call runs once the old one is gone. */
  function VideosBeforeRefusal(call: Call): seq<int>
    requires !call.Teardown?
  {
    if call.launch.Ran? then VideoIndices(call.launch.outputs[..Stop(call.launch.outputs)]) else []
  }

  /**
   A cancelled handler no longer cleans up. A failed load then leaves nothing exactly when no output came before a
   refused clip; a load that failed before it tore anything down leaves what was there.
   */
  lemma WhatAnAbandonedLoadLeaves(s: RunnerState, call: Call)
    requires Sound(s) && !call.Teardown? && Act(s, call).1.Failed?
    ensures var (acted, r) := Act(s, call);
            acted.stores == NO_OUTPUTS <==>
            match r.failure
            case FileMissing => s.stores == NO_OUTPUTS
            case ScriptNotLoaded => s.stores == NO_OUTPUTS
            case UnsupportedFormat => VideosBeforeRefusal(call) == []
            case _ => true
  {
    var (acted, r) := Act(s, call);
    if r.failure.UnsupportedFormat? {
      ActKeeps(s, call);
      NoItemsNoOutputs(acted.stores);
      RefusedLoadLeaves(s, call);
    } else {
      OtherFailuresLeave(s, call);
    }
  }

  lemma RefusedLoadLeaves(s: RunnerState, call: Call)
    requires !call.Teardown? && Act(s, call).1 == Failed(UnsupportedFormat)
    ensures Indices(Act(s, call).0.stores.items) == VideosBeforeRefusal(call)
  {
    ClearingDecides(s, call);
    ExtractsInOrder(NO_OUTPUTS, call.launch.outputs, call.launch.names);
    assert Indices([]) + VideosBeforeRefusal(call) == VideosBeforeRefusal(call);
  }

  lemma OtherFailuresLeave(s: RunnerState, call: Call)
    requires !call.Teardown? && Act(s, call).1.Failed? && !Act(s, call).1.failure.UnsupportedFormat?
    ensures var (acted, r) := Act(s, call);
            acted.stores == if r.failure.FileMissing? || r.failure.ScriptNotLoaded? then s.stores else NO_OUTPUTS
  {}
}
