/** The IaC scanner: the generic scan step instantiated with the IaC type tag
    and subcommand. */
module IacScanner {
  import opened Wrappers
  import opened Jas
  import opened Scanning

  /** The `type` tag of an IaC scan entry. */
  const IacScannerType: string := "iac-scan-modules"
  /** The analyzer subcommand for IaC scanning. */
  const IacScanCommand: string := "iac"

  const IacKind: ScanKind := ScanKind(IacScannerType, IacScanCommand, IaC)

  /** A new IaC manager on the shared session, with an empty buffer. */
  method NewIacScanManager(scanner: JasScanner) returns (manager: ScanManager)
    ensures fresh(manager) && manager.kind == IacKind && manager.scanner == scanner
    ensures manager.results == [] && manager.trace == []
  {
    manager := new ScanManager(IacKind, scanner);
  }

  /** Run the IaC scan over whatever the driver invokes: on the driver's error,
      its IaC classification (possibly nil) and nil results; otherwise the accumulated buffer. */
  method RunIacScan(scanner: JasScanner, helpers: Helpers, calls: seq<Invocation>,
                    verdict: seq<Option<Error>> -> Option<Error>)
    returns (results: Option<seq<SourceCodeScanResult>>, err: Option<Error>)
    modifies scanner
    ensures var d := Drive(IacKind, scanner.analyzerManager, scanner.serverDetails, helpers, [], calls);
            match verdict(d.errs)
            case Some(e) => err == helpers.parseAnalyzerManagerError(IaC, e) && results == None
            case None => err == None && results == Some(d.buffer)
    ensures calls == [] ==> scanner.Current() == old(scanner.Current())
    ensures calls != [] ==> (scanner.configFileName == calls[|calls| - 1].configFileName
                             && scanner.resultsFileName == calls[|calls| - 1].resultsFileName)
  {
    var manager := NewIacScanManager(scanner);
    results, err := RunScan(manager, helpers, calls, verdict);
  }

  /** One IaC `Run` in the IaC terms: the gate is asked about IaC, roots and
      exclusions come from the module's IaC sub-configuration, the config entry
      is tagged "iac-scan-modules" and the analyzer is started with "iac". */
  lemma IacRunProtocol(session: Session, helpers: Helpers, m: Module, fx: Effects)
    ensures var s := RunStep(IacKind, session, helpers, m, fx);
            && (helpers.shouldSkipScanner(m, IaC) ==> s == StepOutcome(None, [], []))
            && (!helpers.shouldSkipScanner(m, IaC) && helpers.getSourceRoots(m, m.scanners.iac).Failure? ==>
                  s == StepOutcome(Some(helpers.getSourceRoots(m, m.scanners.iac).error), [], []))
            && (!helpers.shouldSkipScanner(m, IaC) && helpers.getSourceRoots(m, m.scanners.iac).Success? ==>
                  s.events[0] == ConfigWritten(session.configFileName, ScanConfig([
                    ScanConfiguration(helpers.getSourceRoots(m, m.scanners.iac).value, session.resultsFileName,
                                      "iac-scan-modules", helpers.getExcludePatterns(m, m.scanners.iac))])))
            && (forall i :: 0 <= i < |s.events| && s.events[i].AnalyzerExecuted? ==>
                  s.events[i] == AnalyzerExecuted(session.configFileName, "iac",
                                   helpers.dir(session.analyzerManager.analyzerManagerFullPath), session.serverDetails))
  {
  }
}
