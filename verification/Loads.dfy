/**
 What a load comes to, read off the call, the state before it and what file system, script and disposals did: when it
 succeeds and how it fails otherwise, what it leaves in the runner, and what the client is told.
 */
module Loads {
  import opened Wire
  import opened Handlers
  import opened Runner

  // ----- Default names

  /** The number a string of decimal digits stands for. */
  function Reading(digits: string): int {
    if digits == "" then 0 else 10 * Reading(digits[..|digits| - 1]) + (digits[|digits| - 1] as int - '0' as int)
  }

  lemma DigitReads(d: nat)
    requires d < 10
    ensures "0123456789"[d] as int - '0' as int == d
  {
    assert "0123456789"[d] == '0' + d as char;
  }

  lemma {:induction false} DigitsRead(n: nat)
    ensures Digits(n) != "" && Reading(Digits(n)) == n
    ensures n > 0 ==> Digits(n)[0] != '0'
  {
    if n < 10 {
      DigitReads(n);
      assert Digits(n)[..0] == "";
    } else {
      DigitsRead(n / 10);
      DigitReads(n % 10);
      assert Digits(n)[..|Digits(n)| - 1] == Digits(n / 10);
    }
  }

  /** "Output " and the decimal reading of the index: different outputs get different default names. */
  lemma DefaultNameSays(index: int)
    ensures var name := DefaultName(index);
            && |name| > 7 && name[..7] == "Output "
            && (index >= 0 ==> Reading(name[7..]) == index)
            && (index < 0 ==> name[7] == '-' && Reading(name[8..]) == -index)
            && (index > 0 ==> name[7] != '0')
  {
    var digits := Digits(if index < 0 then -index else index);
    DigitsRead(if index < 0 then -index else index);
    if index < 0 {
      assert DefaultName(index)[8..] == digits;
    } else {
      assert DefaultName(index)[7..] == digits;
    }
  }

  // ----- How a call ends

  /** The call gets as far as the teardown: the file is there, and a reload knows one. */
  predicate SourceFound(s: RunnerState, call: Call) {
    match call
    case LoadScript(_, isFile, _, _, _) => isFile
    case Reload(_, isFile, _, _) => s.scriptPath != None && isFile
    case _ => true
  }

  /** Disposing of the script, if there is one, raises this, or disposing of a managed environment does. */
  predicate DisposalFails(s: RunnerState, d: Disposal, error: Error) {
    || (s.script != None && d == ScriptRaises(error))
    || (s.environment == Managed && d == EnvironmentRaises(error))
  }

  predicate DisposalWorks(s: RunnerState, d: Disposal) {
    !(s.script != None && d.ScriptRaises?) && !(s.environment == Managed && d.EnvironmentRaises?)
  }

  lemma TornDownWorks(s: RunnerState, d: Disposal)
    ensures TornDown(s, d).1 <==> DisposalWorks(s, d)
    ensures !TornDown(s, d).1 ==> DisposalFails(s, d, d.error)
  {
    if !TornDown(s, d).1 {
      assert DisposalFails(s, d, d.error);
    }
  }

  predicate LaunchFails(l: Launch, error: Error) {
    (l.NotLaunched? || l.RunRaises? || l.OutputsRaise?) && l.error == error
  }

  predicate NoClipRefused(outputs: seq<Entry>) {
    forall k :: 0 <= k < |outputs| && outputs[k].output.Video? ==> outputs[k].output.clip.formatId != 0
  }

  lemma ExtractSucceeds(s: OutputStores, outputs: OutputDict, names: map<int, string>)
    ensures Extract(s, outputs, names).1 <==> NoClipRefused(outputs)
  {
    ExtractsTheVideos(s, outputs, names);
    if Stop(outputs) < |outputs| {
      assert Runner.Refused(outputs[Stop(outputs)]);
    }
  }

  /** The results of a call in the order in which they are decided; each excludes those behind it. */
  lemma HowALoadEnds(s: RunnerState, call: Call)
    requires !call.Teardown?
    ensures var r, there, free := Act(s, call).1, SourceFound(s, call), DisposalWorks(s, call.disposal);
            && (r == Failed(ScriptNotLoaded) <==> call.Reload? && s.scriptPath == None)
            && (r == Failed(FileMissing) <==> !there && !(call.Reload? && s.scriptPath == None))
            && (forall e :: r == Failed(DisposalRaised(e)) <==> there && DisposalFails(s, call.disposal, e))
            && (forall e :: r == Failed(LaunchRaised(e)) <==> there && free && LaunchFails(call.launch, e))
            && (r == Failed(UnsupportedFormat)
                <==> there && free && call.launch.Ran? && !NoClipRefused(call.launch.outputs))
            && (r.Loaded? <==> there && free && call.launch.Ran? && NoClipRefused(call.launch.outputs))
  {
    TornDownWorks(s, call.disposal);
    if call.launch.Ran? {
      ExtractSucceeds(NO_OUTPUTS, call.launch.outputs, call.launch.names);
    }
  }

  // ----- What it leaves

  predicate ScriptStays(s: RunnerState, d: Disposal) {
    s.script != None && d.ScriptRaises?
  }

  /** The disposal raised: outputs are gone, and so is the script unless it was the script that raised. */
  predicate HalfTornDown(s: RunnerState, t: RunnerState, d: Disposal) {
    && t.stores.clips == map[] && t.stores.infos == map[] && t.stores.items == []
    && t.script == (if ScriptStays(s, d) then s.script else None)
    && t.disposed == s.disposed + (if s.script == None || ScriptStays(s, d) then {} else {s.script.value})
    && t.environment == s.environment && t.launched == s.launched
    && t.scriptPath == s.scriptPath && t.chdir == s.chdir
  }

  /** The disposals worked: nothing is served or loaded any more, and the file is remembered. */
  predicate FullyTornDown(s: RunnerState, t: RunnerState) {
    && t.stores.clips == map[] && t.stores.infos == map[] && t.stores.items == []
    && t.script == None && t.environment == Environment.Unset && t.launched == s.launched
    && t.disposed == s.disposed + (if s.script == None then {} else {s.script.value})
    && t.scriptPath == s.scriptPath && t.chdir == s.chdir
  }

  predicate CleanedUp(s: RunnerState, t: RunnerState, d: Disposal) {
    if DisposalWorks(s, d) then FullyTornDown(s, t) else HalfTornDown(s, t, d)
  }

  lemma WhatATeardownLeaves(s: RunnerState, d: Disposal)
    ensures var (t, r) := Act(s, Teardown(d));
            && CleanedUp(s, t, d)
            && (r == Loaded([]) <==> DisposalWorks(s, d))
            && (forall e :: r == Failed(DisposalRaised(e)) <==> DisposalFails(s, d, e))
  {
    TornDownWorks(s, d);
  }

  /** The old script is disposed of; the new one is there with its environment as soon as it was launched. */
  predicate Replaced(s: RunnerState, t: RunnerState, l: Launch) {
    && t.disposed == s.disposed + (if s.script == None then {} else {s.script.value})
    && if l.NotLaunched? then
         t.script == None && t.environment == Environment.Unset && t.launched == s.launched
       else
         t.script == Some(s.launched) && t.environment == l.environment && t.launched == s.launched + 1
  }

  lemma WhatALoadLeaves(s: RunnerState, call: Call)
    requires !call.Teardown?
    ensures var t := Act(s, call).0;
            if !SourceFound(s, call) then t == s
            else if DisposalWorks(s, call.disposal) then Replaced(s, t, call.launch)
            else HalfTornDown(s, t, call.disposal)
  {
    TornDownWorks(s, call.disposal);
  }

  // ----- Which directory choice a reload uses

  /** The runner took the source of this call: it was there and the old script could be disposed of. */
  predicate Took(r: LoadResult) {
    Runner.Accepted(r) && r != Failed(ScriptNotLoaded)
  }

  /** By the calls and their results alone: the last choice that came with a file, at first to change directory. */
  function LastChoice(calls: seq<Call>, results: seq<LoadResult>): bool
    requires |calls| == |results|
    decreases |calls|
  {
    if calls == [] then true
    else
      var n := |calls| - 1;
      var before := LastChoice(calls[..n], results[..n]);
      match calls[n]
      case LoadScript(_, _, changeDir, _, _) => if Took(results[n]) then changeDir else before
      case Reload(Some(choice), _, _, _) => if Took(results[n]) then choice else before
      case _ => before
  }

  lemma ChoiceAfterCall(s: RunnerState, call: Call)
    ensures Act(s, call).0.chdir
            == if call.LoadScript? && Took(Act(s, call).1) then call.changeDir
               else if call.Reload? && call.override.Some? && Took(Act(s, call).1) then call.override.value
               else s.chdir
  {}

  lemma {:induction false} ReloadUsesTheLastChoice(start: RunnerState, calls: seq<Call>)
    requires Start(start)
    ensures After(start, calls).chdir == LastChoice(calls, Results(start, calls))
  {
    if calls == [] {
      assert start.chdir;
    } else {
      var n := |calls| - 1;
      ReloadUsesTheLastChoice(start, calls[..n]);
      ChoiceAfterCall(After(start, calls[..n]), calls[n]);
      assert Results(start, calls)[..n] == Results(start, calls[..n]);
    }
  }

  // ----- What the client is told

  /** An Exception whose text can be built, and whether it is FileNotFoundError or ScriptNotLoadedError. */
  predicate Sayable(kind: Kind, printable: bool, missing: bool) {
    kind != Escaping && printable && (missing <==> kind == MissingFile)
  }

  /** The load, or sending its result, raised such an exception. */
  predicate RaisedSayable(r: LoadResult, sending: Sending, missing: bool) {
    match r
    case Loaded(_) => sending.result.Raised? && Sayable(sending.result.kind, sending.result.printable, missing)
    case Failed(FileMissing) => missing
    case Failed(ScriptNotLoaded) => missing
    case Failed(UnsupportedFormat) => !missing
    case Failed(DisposalRaised(e)) => Sayable(e.kind, e.printable, missing)
    case Failed(LaunchRaised(e)) => Sayable(e.kind, e.printable, missing)
  }

  /** Each answer has one condition; an error is told only if the clean-up and sending it both work. */
  lemma WhatTheClientIsTold(s: RunnerState, payload: Decoding, call: Call, sending: Sending, d: Disposal)
    requires !call.Teardown?
    ensures var reply, (acted, r) := Dispatched(s, payload, call, sending, d).1, Act(s, call);
            var told := payload.Decoded? && DisposalWorks(acted, d) && sending.error.Done?;
            && (reply == Some(OK) <==> payload.Decoded? && r.Loaded? && sending.result.Done?)
            && (reply == Some(NOT_FOUND) <==> told && RaisedSayable(r, sending, true))
            && (reply == Some(ERROR) <==> told && RaisedSayable(r, sending, false))
            && (reply == Some(INVALID_PAYLOAD) <==> payload.Invalid? && sending.error.Done?)
            && (reply == None || reply.value in {OK, NOT_FOUND, ERROR, INVALID_PAYLOAD})
  {
    TornDownWorks(Act(s, call).0, d);
  }

  /** The handler of a load cleans up exactly after an exception it can put into words. */
  lemma WhatTheHandlerLeaves(s: RunnerState, payload: Decoding, call: Call, sending: Sending, d: Disposal)
    requires !call.Teardown?
    ensures var t, (acted, r) := Dispatched(s, payload, call, sending, d).0, Act(s, call);
            if !payload.Decoded? then t == s
            else if RaisedSayable(r, sending, true) || RaisedSayable(r, sending, false) then CleanedUp(acted, t, d)
            else t == acted
  {
    TornDownWorks(Act(s, call).0, d);
  }
}
