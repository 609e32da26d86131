/** The Secrets scanner: the generic scan step instantiated with the Secrets
    type tag and subcommand. */
module SecretsScanner {
  import opened Wrappers
  import opened Jas
  import opened Scanning
  import IacScanner

  /** The `type` tag of a Secrets scan entry. */
  const SecretsScannerType: string := "secrets-scan"
  /** The analyzer subcommand for secret scanning. */
  const SecretsScanCommand: string := "sec"

  const SecretsKind: ScanKind := ScanKind(SecretsScannerType, SecretsScanCommand, Secrets)

  /** A new Secrets manager on the shared session, with an empty buffer. */
  method NewSecretsScanManager(scanner: JasScanner) returns (manager: ScanManager)
    ensures fresh(manager) && manager.kind == SecretsKind && manager.scanner == scanner
    ensures manager.results == [] && manager.trace == []
  {
    manager := new ScanManager(SecretsKind, scanner);
  }

  /** Run the Secrets scan over whatever the driver invokes: on the driver's error,
      its Secrets classification (possibly nil) and nil results; otherwise the accumulated buffer. */
  method RunSecretsScan(scanner: JasScanner, helpers: Helpers, calls: seq<Invocation>,
                    verdict: seq<Option<Error>> -> Option<Error>)
    returns (results: Option<seq<SourceCodeScanResult>>, err: Option<Error>)
    modifies scanner
    ensures var d := Drive(SecretsKind, scanner.analyzerManager, scanner.serverDetails, helpers, [], calls);
            match verdict(d.errs)
            case Some(e) => err == helpers.parseAnalyzerManagerError(Secrets, e) && results == None
            case None => err == None && results == Some(d.buffer)
    ensures calls == [] ==> scanner.Current() == old(scanner.Current())
    ensures calls != [] ==> (scanner.configFileName == calls[|calls| - 1].configFileName
                             && scanner.resultsFileName == calls[|calls| - 1].resultsFileName)
  {
    var manager := NewSecretsScanManager(scanner);
    results, err := RunScan(manager, helpers, calls, verdict);
  }

  /** One Secrets `Run` in the Secrets terms: the gate is asked about Secrets,
      roots and exclusions come from the module's Secrets sub-configuration, the
      config entry is tagged "secrets-scan" and the analyzer is started with "sec". */
  lemma SecretsRunProtocol(session: Session, helpers: Helpers, m: Module, fx: Effects)
    ensures var s := RunStep(SecretsKind, session, helpers, m, fx);
            && (helpers.shouldSkipScanner(m, Secrets) ==> s == StepOutcome(None, [], []))
            && (!helpers.shouldSkipScanner(m, Secrets) && helpers.getSourceRoots(m, m.scanners.secrets).Failure? ==>
                  s == StepOutcome(Some(helpers.getSourceRoots(m, m.scanners.secrets).error), [], []))
            && (!helpers.shouldSkipScanner(m, Secrets) && helpers.getSourceRoots(m, m.scanners.secrets).Success? ==>
                  s.events[0] == ConfigWritten(session.configFileName, ScanConfig([
                    ScanConfiguration(helpers.getSourceRoots(m, m.scanners.secrets).value, session.resultsFileName,
                                      "secrets-scan", helpers.getExcludePatterns(m, m.scanners.secrets))])))
            && (forall i :: 0 <= i < |s.events| && s.events[i].AnalyzerExecuted? ==>
                  s.events[i] == AnalyzerExecuted(session.configFileName, "sec",
                                   helpers.dir(session.analyzerManager.analyzerManagerFullPath), session.serverDetails))
  {
  }

  /** The IaC and the Secrets scanner differ only in the type tag and the
      subcommand: where a module's skip gate and sub-configurations agree for
      the two kinds, they return the same error and findings and take the same
      actions, up to those two literals and the kind named in the results read. */
  lemma OnlyTagsDifferFromIac(session: Session, helpers: Helpers, m: Module, fx: Effects)
    requires helpers.shouldSkipScanner(m, IaC) == helpers.shouldSkipScanner(m, Secrets)
    requires m.scanners.iac == m.scanners.secrets
    ensures var iac := RunStep(IacScanner.IacKind, session, helpers, m, fx);
            var sec := RunStep(SecretsKind, session, helpers, m, fx);
            sec.err == iac.err && sec.appended == iac.appended && sec.events == Retag(SecretsKind, iac.events)
  {
    ProtocolIndependentOfKind(IacScanner.IacKind, SecretsKind, session, helpers, m, fx);
  }
}
