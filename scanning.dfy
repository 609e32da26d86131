/**
 * The scan step shared by the IaC and the Secrets scanner: one class,
 * `ScanManager`, parameterised by a `ScanKind`, whose `Run` performs the
 * per-module protocol (skip gate, config file, analyzer, results) and appends
 * what it reads to the manager's own results buffer.
 *
 * `RunStep` is the specification of one `Run`; `Execute` is the same protocol
 * written as the state machine Pending -> Configuring -> Invoking ->
 * Collecting -> {Skipped, Completed, Failed}; `Drive` is the specification of a
 * sequence of `Run` calls on one manager.
 */
module Scanning {
  import opened Wrappers
  import opened Jas

  /** What tells one scanner kind from another: the `type` tag written into the
      config document, the analyzer subcommand and the kind the helpers see. */
  datatype ScanKind = ScanKind(scannerType: string, scanCommand: string, scanType: ScanType)

  /** The config document `createConfigFile` builds: a single scan entry. */
  function ConfigFileContent(kind: ScanKind, roots: seq<string>, output: string, skippedDirs: seq<string>): ScanConfig {
    ScanConfig([ScanConfiguration(roots, output, kind.scannerType, skippedDirs)])
  }

  /** The skip gate for this kind and module. */
  predicate GateHolds(kind: ScanKind, helpers: Helpers, m: Module) {
    helpers.shouldSkipScanner(m, kind.scanType)
  }

  /** The roots resolved for this kind and module. */
  function Roots(kind: ScanKind, helpers: Helpers, m: Module): Result<seq<string>, Error> {
    helpers.getSourceRoots(m, SettingsFor(m, kind.scanType))
  }

  /** The exclude patterns taken for this kind and module. */
  function Excludes(kind: ScanKind, helpers: Helpers, m: Module): seq<string> {
    helpers.getExcludePatterns(m, SettingsFor(m, kind.scanType))
  }

  /** The three external actions of a full `Run`, in the order they are taken. */
  function WriteEvent(kind: ScanKind, session: Session, helpers: Helpers, m: Module, roots: seq<string>): Event {
    ConfigWritten(session.configFileName,
                  ConfigFileContent(kind, roots, session.resultsFileName, Excludes(kind, helpers, m)))
  }

  function ExecEvent(kind: ScanKind, session: Session, helpers: Helpers): Event {
    AnalyzerExecuted(session.configFileName, kind.scanCommand,
                     helpers.dir(session.analyzerManager.analyzerManagerFullPath), session.serverDetails)
  }

  function ReadEvent(kind: ScanKind, session: Session, m: Module): Event {
    ResultsRead(session.resultsFileName, m.sourceRoot, kind.scanType)
  }

  // ---------------------------------------------------------------------------
  // Properties of traces

  predicate WroteConfig(events: seq<Event>) {
    exists i :: 0 <= i < |events| && events[i].ConfigWritten?
  }

  predicate Executed(events: seq<Event>) {
    exists i :: 0 <= i < |events| && events[i].AnalyzerExecuted?
  }

  predicate ReadBack(events: seq<Event>) {
    exists i :: 0 <= i < |events| && events[i].ResultsRead?
  }

  /** The position of an action in the protocol. */
  function Stage(e: Event): nat {
    match e
    case ConfigWritten(_, _) => 0
    case AnalyzerExecuted(_, _, _, _) => 1
    case ResultsRead(_, _, _) => 2
  }

  /** Write, then execute, then read, each at most once and none skipped over. */
  predicate InProtocolOrder(events: seq<Event>) {
    |events| <= 3 && forall i :: 0 <= i < |events| ==> Stage(events[i]) == i
  }

  /** Every config written goes to the session's config file and holds exactly
      one entry: the resolved roots, the session's results file, the kind's
      type tag and the exclude patterns, each exactly as the helpers gave them. */
  predicate ConfigsAsSpecified(events: seq<Event>, kind: ScanKind, session: Session, helpers: Helpers, m: Module) {
    forall i :: 0 <= i < |events| && events[i].ConfigWritten? ==>
      && events[i].path == session.configFileName
      && Roots(kind, helpers, m).Success?
      && |events[i].content.scans| == 1
      && events[i].content.scans[0].roots == Roots(kind, helpers, m).value
      && events[i].content.scans[0].output == session.resultsFileName
      && events[i].content.scans[0].scannerType == kind.scannerType
      && events[i].content.scans[0].skippedDirs == Excludes(kind, helpers, m)
  }

  /** Every analyzer run reads the session's config file with the kind's
      subcommand, from the directory of the analyzer executable; every results
      read takes the session's results file against the module's source root. */
  predicate CallsAsSpecified(events: seq<Event>, kind: ScanKind, session: Session, helpers: Helpers, m: Module) {
    forall i :: 0 <= i < |events| ==>
      && (events[i].AnalyzerExecuted? ==>
            && events[i].configPath == session.configFileName
            && events[i].command == kind.scanCommand
            && events[i].workingDir == helpers.dir(session.analyzerManager.analyzerManagerFullPath)
            && events[i].server == session.serverDetails)
      && (events[i].ResultsRead? ==>
            && events[i].resultsPath == session.resultsFileName
            && events[i].sourceRoot == m.sourceRoot
            && events[i].scanType == kind.scanType)
  }

  // ---------------------------------------------------------------------------
  // One Run

  /** What one `Run` returns, what it appends to the buffer and what it does outside. */
  datatype StepOutcome = StepOutcome(err: Option<Error>, appended: seq<SourceCodeScanResult>, events: seq<Event>)

  /** The specification of `ScanManager.Run` on one module. */
  function RunStep(kind: ScanKind, session: Session, helpers: Helpers, m: Module, fx: Effects): StepOutcome
  {
    if helpers.shouldSkipScanner(m, kind.scanType) then
      StepOutcome(None, [], [])
    else match Roots(kind, helpers, m)
      case Failure(e) =>
        StepOutcome(Some(e), [], [])
      case Success(roots) =>
        var write := WriteEvent(kind, session, helpers, m, roots);
        if fx.writeConfig.Some? then
          StepOutcome(fx.writeConfig, [], [write])
        else
          var exec := ExecEvent(kind, session, helpers);
          if fx.exec.Some? then
            StepOutcome(fx.exec, [], [write, exec])
          else
            var read := ReadEvent(kind, session, m);
            match fx.readResults
            case Failure(e) => StepOutcome(Some(e), [], [write, exec, read])
            case Success(found) => StepOutcome(None, found, [write, exec, read])
  }

  /** Whether every stage of one `Run` gets past its check. */
  predicate AllStagesSucceed(kind: ScanKind, helpers: Helpers, m: Module, fx: Effects) {
    && !GateHolds(kind, helpers, m)
    && Roots(kind, helpers, m).Success?
    && fx.writeConfig == None
    && fx.exec == None
    && fx.readResults.Success?
  }

  /** The external actions of one `Run`: which are taken after which outcome,
      in which order, and with which arguments. */
  lemma RunStepActions(kind: ScanKind, session: Session, helpers: Helpers, m: Module, fx: Effects)
    ensures var s := RunStep(kind, session, helpers, m, fx);
            && (GateHolds(kind, helpers, m) ==> s.events == [])
            && (WroteConfig(s.events) <==> !GateHolds(kind, helpers, m) && Roots(kind, helpers, m).Success?)
            && (Executed(s.events) <==> WroteConfig(s.events) && fx.writeConfig == None)
            && (ReadBack(s.events) <==> Executed(s.events) && fx.exec == None)
            && InProtocolOrder(s.events)
            && ConfigsAsSpecified(s.events, kind, session, helpers, m)
            && CallsAsSpecified(s.events, kind, session, helpers, m)
  {
    var s := RunStep(kind, session, helpers, m, fx);
    if !GateHolds(kind, helpers, m) && Roots(kind, helpers, m).Success? {
      assert s.events[0].ConfigWritten?;
      if fx.writeConfig.None? {
        assert s.events[1].AnalyzerExecuted?;
        if fx.exec.None? {
          assert s.events[2].ResultsRead?;
        }
      }
    }
  }

  /** The error and the findings of one `Run`: success with nothing on skip;
      otherwise the error of the first stage that fails, with nothing appended;
      and the findings exactly as read when every stage succeeds. */
  lemma RunStepOutcome(kind: ScanKind, session: Session, helpers: Helpers, m: Module, fx: Effects)
    ensures var s := RunStep(kind, session, helpers, m, fx);
            && (GateHolds(kind, helpers, m) ==> s.err == None && s.appended == [])
            && (!GateHolds(kind, helpers, m) && Roots(kind, helpers, m).Failure? ==>
                  s.err == Some(Roots(kind, helpers, m).error))
            && (!GateHolds(kind, helpers, m) && Roots(kind, helpers, m).Success? && fx.writeConfig.Some? ==>
                  s.err == fx.writeConfig)
            && ((!GateHolds(kind, helpers, m) && Roots(kind, helpers, m).Success? && fx.writeConfig == None
                 && fx.exec.Some?) ==> s.err == fx.exec)
            && ((!GateHolds(kind, helpers, m) && Roots(kind, helpers, m).Success? && fx.writeConfig == None
                 && fx.exec == None && fx.readResults.Failure?) ==> s.err == Some(fx.readResults.error))
            && (s.err == None <==> GateHolds(kind, helpers, m) || AllStagesSucceed(kind, helpers, m, fx))
            && s.appended == (if AllStagesSucceed(kind, helpers, m, fx) then fx.readResults.value else [])
  {
  }

  // ---------------------------------------------------------------------------
  // The same protocol as a state machine

  datatype Phase = Pending | Configuring | Invoking | Collecting | Skipped | Completed | Failed(error: Error)

  predicate Terminal(p: Phase) {
    p.Skipped? || p.Completed? || p.Failed?
  }

  /** How many transitions at most separate a phase from a terminal one. */
  function Rank(p: Phase): nat {
    match p
    case Pending => 4
    case Configuring => 3
    case Invoking => 2
    case Collecting => 1
    case _ => 0
  }

  datatype Machine = Machine(phase: Phase, events: seq<Event>, found: seq<SourceCodeScanResult>)

  /** One transition. Each transition takes at most one external action. */
  function Advance(kind: ScanKind, session: Session, helpers: Helpers, m: Module, fx: Effects, st: Machine): (next: Machine)
    requires !Terminal(st.phase)
    ensures Rank(next.phase) < Rank(st.phase)
    ensures |st.events| <= |next.events| <= |st.events| + 1 && next.events[..|st.events|] == st.events
  {
    match st.phase
    case Pending =>
      if GateHolds(kind, helpers, m) then st.(phase := Skipped) else st.(phase := Configuring)
    case Configuring =>
      (match Roots(kind, helpers, m)
       case Failure(e) => st.(phase := Failed(e))
       case Success(roots) =>
         var events := st.events + [WriteEvent(kind, session, helpers, m, roots)];
         match fx.writeConfig
         case Some(e) => st.(phase := Failed(e), events := events)
         case None => st.(phase := Invoking, events := events))
    case Invoking =>
      var events := st.events + [ExecEvent(kind, session, helpers)];
      (match fx.exec
       case Some(e) => st.(phase := Failed(e), events := events)
       case None => st.(phase := Collecting, events := events))
    case Collecting =>
      var events := st.events + [ReadEvent(kind, session, m)];
      (match fx.readResults
       case Failure(e) => st.(phase := Failed(e), events := events)
       case Success(found) => st.(phase := Completed, events := events, found := found))
  }

  /** Run the machine to a terminal phase. */
  function Execute(kind: ScanKind, session: Session, helpers: Helpers, m: Module, fx: Effects, st: Machine): (final: Machine)
    decreases Rank(st.phase)
    ensures Terminal(final.phase)
    ensures |st.events| <= |final.events| && final.events[..|st.events|] == st.events
    ensures |final.events| <= |st.events| + Rank(st.phase)
  {
    if Terminal(st.phase) then st
    else Execute(kind, session, helpers, m, fx, Advance(kind, session, helpers, m, fx, st))
  }

  /** `RunStep` is the state machine started in Pending: the same actions, an
      error exactly when it ends Failed (and that error), success with nothing
      appended when it ends Skipped, the findings when it ends Completed. */
  lemma {:induction false} RunStepFollowsStateMachine(kind: ScanKind, session: Session, helpers: Helpers, m: Module, fx: Effects)
    ensures var final := Execute(kind, session, helpers, m, fx, Machine(Pending, [], []));
            var s := RunStep(kind, session, helpers, m, fx);
            && final.events == s.events
            && (final.phase.Skipped? <==> GateHolds(kind, helpers, m))
            && (final.phase.Failed? <==> s.err.Some?)
            && (final.phase.Failed? ==> s.err == Some(final.phase.error))
            && s.appended == (if final.phase.Completed? then final.found else [])
  {
    var m0 := Machine(Pending, [], []);
    var m1 := Advance(kind, session, helpers, m, fx, m0);
    assert Execute(kind, session, helpers, m, fx, m0) == Execute(kind, session, helpers, m, fx, m1);
    if m1.phase.Configuring? {
      var m2 := Advance(kind, session, helpers, m, fx, m1);
      assert Execute(kind, session, helpers, m, fx, m1) == Execute(kind, session, helpers, m, fx, m2);
      if m2.phase.Invoking? {
        var m3 := Advance(kind, session, helpers, m, fx, m2);
        assert Execute(kind, session, helpers, m, fx, m2) == Execute(kind, session, helpers, m, fx, m3);
        if m3.phase.Collecting? {
          var m4 := Advance(kind, session, helpers, m, fx, m3);
          assert Execute(kind, session, helpers, m, fx, m3) == m4;
        }
      }
    }
  }

  // ---------------------------------------------------------------------------
  // Several Runs on one manager

  /** One call of `Run` by the driver: the module, the config and results file
      names the session holds at that moment, and the outcomes of the actions. */
  datatype Invocation = Invocation(target: Module, configFileName: string, resultsFileName: string, effects: Effects)

  function SessionAt(am: AnalyzerManager, server: ServerDetails, call: Invocation): Session {
    Session(call.configFileName, call.resultsFileName, am, server)
  }

  function StepOf(kind: ScanKind, am: AnalyzerManager, server: ServerDetails, helpers: Helpers, call: Invocation): StepOutcome {
    RunStep(kind, SessionAt(am, server, call), helpers, call.target, call.effects)
  }

  /** The errors the `Run` calls return, the buffer they leave and their actions. */
  datatype DriveOutcome = DriveOutcome(errs: seq<Option<Error>>, buffer: seq<SourceCodeScanResult>, events: seq<Event>)

  /** The specification of a sequence of `Run` calls, starting from `buffer`. */
  function Drive(kind: ScanKind, am: AnalyzerManager, server: ServerDetails, helpers: Helpers,
                 buffer: seq<SourceCodeScanResult>, calls: seq<Invocation>): (d: DriveOutcome)
    decreases |calls|
    ensures |d.errs| == |calls|
  {
    if calls == [] then DriveOutcome([], buffer, [])
    else
      var s := StepOf(kind, am, server, helpers, calls[0]);
      var rest := Drive(kind, am, server, helpers, buffer + s.appended, calls[1..]);
      DriveOutcome([s.err] + rest.errs, rest.buffer, s.events + rest.events)
  }

  /** The findings the calls contribute, call after call. */
  function Collected(kind: ScanKind, am: AnalyzerManager, server: ServerDetails, helpers: Helpers,
                     calls: seq<Invocation>): seq<SourceCodeScanResult>
    decreases |calls|
  {
    if calls == [] then []
    else StepOf(kind, am, server, helpers, calls[0]).appended + Collected(kind, am, server, helpers, calls[1..])
  }

  /** The number of findings each call reads back, summed. */
  function FoundCount(kind: ScanKind, am: AnalyzerManager, server: ServerDetails, helpers: Helpers,
                      calls: seq<Invocation>): nat
    decreases |calls|
  {
    if calls == [] then 0
    else |StepOf(kind, am, server, helpers, calls[0]).appended| + FoundCount(kind, am, server, helpers, calls[1..])
  }

  /** The buffer only grows at its end: the old entries stay, in place and
      unchanged, followed by every call's findings in call order. */
  lemma {:induction false} DriveAppends(kind: ScanKind, am: AnalyzerManager, server: ServerDetails, helpers: Helpers,
                                        buffer: seq<SourceCodeScanResult>, calls: seq<Invocation>)
    ensures Drive(kind, am, server, helpers, buffer, calls).buffer == buffer + Collected(kind, am, server, helpers, calls)
    decreases |calls|
  {
    if calls != [] {
      var s := StepOf(kind, am, server, helpers, calls[0]);
      DriveAppends(kind, am, server, helpers, buffer + s.appended, calls[1..]);
      assert buffer + s.appended + Collected(kind, am, server, helpers, calls[1..])
          == buffer + (s.appended + Collected(kind, am, server, helpers, calls[1..]));
    }
  }

  /** The findings collected over a sequence of calls number the findings each
      call read back, summed. */
  lemma {:induction false} CollectedLength(kind: ScanKind, am: AnalyzerManager, server: ServerDetails, helpers: Helpers,
                                           calls: seq<Invocation>)
    ensures |Collected(kind, am, server, helpers, calls)| == FoundCount(kind, am, server, helpers, calls)
    decreases |calls|
  {
    if calls != [] {
      CollectedLength(kind, am, server, helpers, calls[1..]);
    }
  }

  /** After any sequence of calls the buffer holds its first entries plus, for
      each call, exactly as many findings as that call read back. */
  lemma BufferLength(kind: ScanKind, am: AnalyzerManager, server: ServerDetails, helpers: Helpers,
                     buffer: seq<SourceCodeScanResult>, calls: seq<Invocation>)
    ensures |Drive(kind, am, server, helpers, buffer, calls).buffer| == |buffer| + FoundCount(kind, am, server, helpers, calls)
  {
    DriveAppends(kind, am, server, helpers, buffer, calls);
    CollectedLength(kind, am, server, helpers, calls);
  }

  /** Call i of the sequence returns what `Run` returns for it alone. */
  lemma {:induction false} DriveErrors(kind: ScanKind, am: AnalyzerManager, server: ServerDetails, helpers: Helpers,
                                       buffer: seq<SourceCodeScanResult>, calls: seq<Invocation>, i: nat)
    requires i < |calls|
    ensures Drive(kind, am, server, helpers, buffer, calls).errs[i] == StepOf(kind, am, server, helpers, calls[i]).err
    decreases |calls|
  {
    if i > 0 {
      var s := StepOf(kind, am, server, helpers, calls[0]);
      DriveErrors(kind, am, server, helpers, buffer + s.appended, calls[1..], i - 1);
    }
  }

  /** Appending one more call to the sequence extends each part of the outcome
      by what that call alone produces. */
  lemma {:induction false} DriveSnoc(kind: ScanKind, am: AnalyzerManager, server: ServerDetails, helpers: Helpers,
                                     buffer: seq<SourceCodeScanResult>, calls: seq<Invocation>, last: Invocation)
    ensures var d := Drive(kind, am, server, helpers, buffer, calls);
            var s := StepOf(kind, am, server, helpers, last);
            Drive(kind, am, server, helpers, buffer, calls + [last])
              == DriveOutcome(d.errs + [s.err], d.buffer + s.appended, d.events + s.events)
    decreases |calls|
  {
    var s := StepOf(kind, am, server, helpers, last);
    if calls == [] {
      assert [] + [last] == [last];
      assert ([last])[1..] == [];
    } else {
      var s0 := StepOf(kind, am, server, helpers, calls[0]);
      assert (calls + [last])[0] == calls[0];
      assert (calls + [last])[1..] == calls[1..] + [last];
      DriveSnoc(kind, am, server, helpers, buffer + s0.appended, calls[1..], last);
      var rest := Drive(kind, am, server, helpers, buffer + s0.appended, calls[1..]);
      assert [s0.err] + (rest.errs + [s.err]) == ([s0.err] + rest.errs) + [s.err];
      assert s0.events + (rest.events + s.events) == (s0.events + rest.events) + s.events;
    }
  }

  /** Scanning one sequence of modules and then another gives the findings of
      the first followed by those of the second. */
  lemma {:induction false} CollectedConcat(kind: ScanKind, am: AnalyzerManager, server: ServerDetails, helpers: Helpers,
                                           xs: seq<Invocation>, ys: seq<Invocation>)
    ensures Collected(kind, am, server, helpers, xs + ys)
         == Collected(kind, am, server, helpers, xs) + Collected(kind, am, server, helpers, ys)
    decreases |xs|
  {
    if xs == [] {
      assert xs + ys == ys;
    } else {
      assert (xs + ys)[0] == xs[0];
      assert (xs + ys)[1..] == xs[1..] + ys;
      CollectedConcat(kind, am, server, helpers, xs[1..], ys);
    }
  }

  /** A sequence of calls that each fail or are skipped collects no findings. */
  lemma {:induction false} FailedCallsContributeNothing(kind: ScanKind, am: AnalyzerManager, server: ServerDetails,
                                                        helpers: Helpers, calls: seq<Invocation>)
    requires forall i :: 0 <= i < |calls| ==> StepOf(kind, am, server, helpers, calls[i]).err.Some?
                                              || GateHolds(kind, helpers, calls[i].target)
    ensures Collected(kind, am, server, helpers, calls) == []
    decreases |calls|
  {
    if calls != [] {
      assert forall i :: 0 <= i < |calls[1..]| ==> calls[1..][i] == calls[i + 1];
      FailedCallsContributeNothing(kind, am, server, helpers, calls[1..]);
    }
  }

  /** A call that fails or is skipped leaves no trace in the buffer, wherever
      it stands in the sequence: dropping it changes nothing collected. */
  lemma FailedCallDropsOut(kind: ScanKind, am: AnalyzerManager, server: ServerDetails, helpers: Helpers,
                           xs: seq<Invocation>, c: Invocation, ys: seq<Invocation>)
    requires StepOf(kind, am, server, helpers, c).err.Some? || GateHolds(kind, helpers, c.target)
    ensures Collected(kind, am, server, helpers, xs + [c] + ys) == Collected(kind, am, server, helpers, xs + ys)
  {
    CollectedConcat(kind, am, server, helpers, xs + [c], ys);
    CollectedConcat(kind, am, server, helpers, xs, [c]);
    FailedCallsContributeNothing(kind, am, server, helpers, [c]);
    CollectedConcat(kind, am, server, helpers, xs, ys);
  }

  // ---------------------------------------------------------------------------
  // Renaming one kind into another

  function RetagEvent(k: ScanKind, e: Event): Event {
    match e
    case ConfigWritten(p, c) =>
      ConfigWritten(p, ScanConfig(seq(|c.scans|, j requires 0 <= j < |c.scans| => c.scans[j].(scannerType := k.scannerType))))
    case AnalyzerExecuted(p, _, w, srv) => AnalyzerExecuted(p, k.scanCommand, w, srv)
    case ResultsRead(p, r, _) => ResultsRead(p, r, k.scanType)
  }

  function Retag(k: ScanKind, events: seq<Event>): seq<Event> {
    seq(|events|, i requires 0 <= i < |events| => RetagEvent(k, events[i]))
  }

  /** Two kinds follow one protocol: on a module for which their skip gates and
      sub-configurations agree, they return the same error and findings, and
      their actions differ only in the type tag, the subcommand and the kind. */
  lemma ProtocolIndependentOfKind(k1: ScanKind, k2: ScanKind, session: Session, helpers: Helpers, m: Module, fx: Effects)
    requires helpers.shouldSkipScanner(m, k1.scanType) == helpers.shouldSkipScanner(m, k2.scanType)
    requires SettingsFor(m, k1.scanType) == SettingsFor(m, k2.scanType)
    ensures var s1 := RunStep(k1, session, helpers, m, fx);
            var s2 := RunStep(k2, session, helpers, m, fx);
            s2.err == s1.err && s2.appended == s1.appended && s2.events == Retag(k2, s1.events)
  {
    var s1 := RunStep(k1, session, helpers, m, fx);
    var s2 := RunStep(k2, session, helpers, m, fx);
    assert Roots(k1, helpers, m) == Roots(k2, helpers, m);
    assert Excludes(k1, helpers, m) == Excludes(k2, helpers, m);
    if !GateHolds(k1, helpers, m) && Roots(k1, helpers, m).Success? {
      var roots := Roots(k1, helpers, m).value;
      var w1, w2 := WriteEvent(k1, session, helpers, m, roots), WriteEvent(k2, session, helpers, m, roots);
      assert RetagEvent(k2, w1) == w2 by {
        assert |w1.content.scans| == 1;
        assert w1.content.scans[0].(scannerType := k2.scannerType) == w2.content.scans[0];
      }
      assert RetagEvent(k2, ExecEvent(k1, session, helpers)) == ExecEvent(k2, session, helpers);
      assert RetagEvent(k2, ReadEvent(k1, session, m)) == ReadEvent(k2, session, m);
    }
  }

  // ---------------------------------------------------------------------------
  // The manager

  /** A scanner manager (`IacScanManager`, `SecretScanManager`): the kind it
      scans for, the shared session, and its own results buffer. */
  class ScanManager {
    const kind: ScanKind
    const scanner: JasScanner
    var results: seq<SourceCodeScanResult>
    /** The external actions taken so far, oldest first. */
    ghost var trace: seq<Event>

    constructor (kind: ScanKind, scanner: JasScanner)
      ensures this.kind == kind && this.scanner == scanner
      ensures results == [] && trace == []
    {
      this.kind := kind;
      this.scanner := scanner;
      results := [];
      trace := [];
    }

    /** Resolve the roots; on success build the one-entry config document and
        write it to the session's config file. */
    method CreateConfigFile(helpers: Helpers, m: Module, writeOutcome: Option<Error>) returns (err: Option<Error>)
      modifies this`trace
      ensures Roots(kind, helpers, m).Failure? ==>
                err == Some(Roots(kind, helpers, m).error) && trace == old(trace)
      ensures Roots(kind, helpers, m).Success? ==>
                && err == writeOutcome
                && trace == old(trace) + [ConfigWritten(scanner.configFileName, ScanConfig([
                     ScanConfiguration(Roots(kind, helpers, m).value, scanner.resultsFileName,
                                       kind.scannerType, Excludes(kind, helpers, m))]))]
    {
      var roots := helpers.getSourceRoots(m, SettingsFor(m, kind.scanType));
      if roots.Failure? {
        return Some(roots.error);
      }
      var content := ConfigFileContent(kind, roots.value, scanner.resultsFileName,
                                        helpers.getExcludePatterns(m, SettingsFor(m, kind.scanType)));
      trace := trace + [ConfigWritten(scanner.configFileName, content)];
      err := writeOutcome;
    }

    /** Start the analyzer on the session's config file with the kind's subcommand. */
    method RunAnalyzerManager(helpers: Helpers, execOutcome: Option<Error>) returns (err: Option<Error>)
      modifies this`trace
      ensures err == execOutcome
      ensures trace == old(trace) + [AnalyzerExecuted(scanner.configFileName, kind.scanCommand,
                                       helpers.dir(scanner.analyzerManager.analyzerManagerFullPath),
                                       scanner.serverDetails)]
    {
      trace := trace + [AnalyzerExecuted(scanner.configFileName, kind.scanCommand,
                                         helpers.dir(scanner.analyzerManager.analyzerManagerFullPath),
                                         scanner.serverDetails)];
      err := execOutcome;
    }

    /** Scan one module. */
    method Run(helpers: Helpers, m: Module, fx: Effects) returns (err: Option<Error>)
      modifies this
      ensures var s := RunStep(kind, scanner.Current(), helpers, m, fx);
              err == s.err && results == old(results) + s.appended && trace == old(trace) + s.events
      ensures err.Some? || GateHolds(kind, helpers, m) ==> results == old(results)
      ensures GateHolds(kind, helpers, m) ==> err == None && trace == old(trace)
    {
      if helpers.shouldSkipScanner(m, kind.scanType) {
        return None;
      }
      err := CreateConfigFile(helpers, m, fx.writeConfig);
      if err.Some? {
        return;
      }
      err := RunAnalyzerManager(helpers, fx.exec);
      if err.Some? {
        return;
      }
      trace := trace + [ResultsRead(scanner.resultsFileName, m.sourceRoot, kind.scanType)];
      var workingDirResults := fx.readResults;
      if workingDirResults.Failure? {
        return Some(workingDirResults.error);
      }
      results := results + workingDirResults.value;
      err := None;
    }
  }

  // ---------------------------------------------------------------------------
  // The driver and the entry point

  /**
   * The scan driver (`jas.JasScanner.Run`, which is not part of this model), as
   * far as the scanners depend on it: it calls `Run` once per invocation, in
   * the order given, with the session pointing at that invocation's files.
   * Which modules, in which order and whether it stops early is the caller's
   * choice of `calls`.
   */
  method DriveScan(manager: ScanManager, helpers: Helpers, calls: seq<Invocation>) returns (errs: seq<Option<Error>>)
    modifies manager, manager.scanner
    ensures var d := Drive(manager.kind, manager.scanner.analyzerManager, manager.scanner.serverDetails,
                           helpers, old(manager.results), calls);
            errs == d.errs && manager.results == d.buffer && manager.trace == old(manager.trace) + d.events
    ensures calls == [] ==> manager.scanner.Current() == old(manager.scanner.Current())
    ensures calls != [] ==> (manager.scanner.configFileName == calls[|calls| - 1].configFileName
                             && manager.scanner.resultsFileName == calls[|calls| - 1].resultsFileName)
  {
    var kind, scanner := manager.kind, manager.scanner;
    var am, server := scanner.analyzerManager, scanner.serverDetails;
    ghost var buffer0, trace0 := manager.results, manager.trace;
    ghost var config0, results0 := scanner.configFileName, scanner.resultsFileName;
    errs := [];
    var i := 0;
    while i < |calls|
      invariant 0 <= i <= |calls|
      invariant |trace0| <= |manager.trace| && manager.trace[..|trace0|] == trace0
      invariant Drive(kind, am, server, helpers, buffer0, calls[..i])
                  == DriveOutcome(errs, manager.results, manager.trace[|trace0|..])
      invariant i == 0 ==> scanner.configFileName == config0 && scanner.resultsFileName == results0
      invariant i > 0 ==> (scanner.configFileName == calls[i - 1].configFileName
                           && scanner.resultsFileName == calls[i - 1].resultsFileName)
    {
      DriveSnoc(kind, am, server, helpers, buffer0, calls[..i], calls[i]);
      assert calls[..i + 1] == calls[..i] + [calls[i]];
      scanner.configFileName := calls[i].configFileName;
      scanner.resultsFileName := calls[i].resultsFileName;
      ghost var before := manager.trace;
      var e := manager.Run(helpers, calls[i].target, calls[i].effects);
      assert manager.trace[|trace0|..] == before[|trace0|..] + (manager.trace[|before|..]);
      errs := errs + [e];
      i := i + 1;
    }
    assert calls[..i] == calls;
    assert manager.trace == trace0 + manager.trace[|trace0|..];
  }

  /**
   * What `RunIacScan` and `RunSecretsScan` do with a fresh manager: let the
   * driver run it, and on the driver's error return the kind's classification
   * of that error (which may itself be nil) and no results (nil), otherwise no
   * error and the accumulated buffer.
   * `verdict` is the driver's error as a function of the errors of its `Run`
   * calls (the driver's own rule is not part of this model).
   */
  method RunScan(manager: ScanManager, helpers: Helpers, calls: seq<Invocation>,
                 verdict: seq<Option<Error>> -> Option<Error>)
    returns (results: Option<seq<SourceCodeScanResult>>, err: Option<Error>)
    requires manager.results == []
    modifies manager, manager.scanner
    ensures var d := Drive(manager.kind, manager.scanner.analyzerManager, manager.scanner.serverDetails,
                           helpers, [], calls);
            && manager.results == d.buffer
            && manager.trace == old(manager.trace) + d.events
            && match verdict(d.errs)
               case Some(e) => err == helpers.parseAnalyzerManagerError(manager.kind.scanType, e) && results == None
               case None => err == None && results == Some(d.buffer)
    ensures calls == [] ==> manager.scanner.Current() == old(manager.scanner.Current())
    ensures calls != [] ==> (manager.scanner.configFileName == calls[|calls| - 1].configFileName
                             && manager.scanner.resultsFileName == calls[|calls| - 1].resultsFileName)
  {
    var errs := DriveScan(manager, helpers, calls);
    var driverErr := verdict(errs);
    if driverErr.Some? {
      err := helpers.parseAnalyzerManagerError(manager.kind.scanType, driverErr.value);
      results := None;
      return;
    }
    results := Some(manager.results);
    err := None;
  }
}
