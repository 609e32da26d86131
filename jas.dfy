/**
 * The interface of the `jas` helper package as the two source-code scanners
 * see it: the values they pass around, the shared scan session
 * (`jas.JasScanner`) and the helpers they call. The helpers' own rules are
 * not modelled: each is an oracle, either a function supplied in `Helpers`
 * (the helpers that only compute from their arguments) or an outcome
 * supplied per call in `Effects` (the helpers that touch files or start the
 * analyzer).
 */
module Jas {
  import opened Wrappers

  /** The scanner kinds the helpers distinguish (`utils.IaC`, `utils.Secrets`). */
  datatype ScanType = IaC | Secrets

  /** One scanner's sub-configuration of a module (`jfrogappsconfig.Scanner`). */
  datatype ScannerSettings = ScannerSettings(workingDirs: seq<string>, excludePatterns: seq<string>)

  /** The per-scanner sub-configurations of a module; absent ones are nil pointers in Go. */
  datatype ModuleScanners = ModuleScanners(iac: Option<ScannerSettings>, secrets: Option<ScannerSettings>)

  /** A module to scan (`jfrogappsconfig.Module`), with the fields the scanners read. */
  datatype Module = Module(name: string, sourceRoot: string, scanners: ModuleScanners)

  /** The sub-configuration a scanner of the given kind passes to the helpers:
      `module.Scanners.Iac` or `module.Scanners.Secrets`. */
  function SettingsFor(m: Module, t: ScanType): Option<ScannerSettings> {
    match t
    case IaC => m.scanners.iac
    case Secrets => m.scanners.secrets
  }

  /** One finding read back from the analyzer (`utils.SourceCodeScanResult`).
      The scanners never look inside a finding. */
  datatype SourceCodeScanResult = SourceCodeScanResult(
    file: string, lineColumn: string, text: string, severity: string, findingType: string)

  /** An error value returned by a helper, carried without interpretation. */
  datatype Error = Error(message: string)

  /** Server connection details handed to the analyzer unchanged. */
  datatype ServerDetails = ServerDetails(url: string, user: string)

  /** The analyzer manager: where the analyzer executable is installed. */
  datatype AnalyzerManager = AnalyzerManager(analyzerManagerFullPath: string)

  /** One entry of a scanners config document (`iacScanConfiguration`,
      `secretsScanConfiguration`; both have this shape). */
  datatype ScanConfiguration = ScanConfiguration(
    roots: seq<string>, output: string, scannerType: string, skippedDirs: seq<string>)

  /** A scanners config document (`iacScanConfig`, `secretsScanConfig`). */
  datatype ScanConfig = ScanConfig(scans: seq<ScanConfiguration>)

  /** The values of the shared session a scanner reads during one `Run`. */
  datatype Session = Session(
    configFileName: string, resultsFileName: string,
    analyzerManager: AnalyzerManager, serverDetails: ServerDetails)

  /**
   * The shared scan session (`jas.JasScanner`). Every scanner manager holds a
   * reference to the same object and only reads it; the driver that iterates
   * modules may point it at other config and results files between modules.
   */
  class JasScanner {
    var configFileName: string
    var resultsFileName: string
    const analyzerManager: AnalyzerManager
    const serverDetails: ServerDetails

    constructor (configFileName: string, resultsFileName: string,
                 analyzerManager: AnalyzerManager, serverDetails: ServerDetails)
      ensures Current() == Session(configFileName, resultsFileName, analyzerManager, serverDetails)
    {
      this.configFileName := configFileName;
      this.resultsFileName := resultsFileName;
      this.analyzerManager := analyzerManager;
      this.serverDetails := serverDetails;
    }

    /** The session values in force right now. */
    function Current(): Session
      reads this
    {
      Session(configFileName, resultsFileName, analyzerManager, serverDetails)
    }
  }

  /**
   * The helpers that compute from their arguments alone, as oracles:
   * `jas.ShouldSkipScanner`, `jas.GetSourceRoots`, `jas.GetExcludePatterns`,
   * `filepath.Dir` and `utils.ParseAnalyzerManagerError` (whose result is a Go
   * `error`, which may be nil: `None`).
   */
  datatype Helpers = Helpers(
    shouldSkipScanner: (Module, ScanType) -> bool,
    getSourceRoots: (Module, Option<ScannerSettings>) -> Result<seq<string>, Error>,
    getExcludePatterns: (Module, Option<ScannerSettings>) -> seq<string>,
    dir: string -> string,
    parseAnalyzerManagerError: (ScanType, Error) -> Option<Error>)

  /**
   * The outcomes of the three external actions of one `Run`, as oracles:
   * `jas.CreateScannersConfigFile` (nil or an error), `AnalyzerManager.Exec`
   * (nil or an error) and `jas.GetSourceCodeScanResults` (findings or an error).
   * An outcome is only consumed if its action is reached.
   */
  datatype Effects = Effects(
    writeConfig: Option<Error>,
    exec: Option<Error>,
    readResults: Result<seq<SourceCodeScanResult>, Error>)

  /** An external action a scanner performed, as recorded in its trace. */
  datatype Event =
    | ConfigWritten(path: string, content: ScanConfig)
    | AnalyzerExecuted(configPath: string, command: string, workingDir: string, server: ServerDetails)
    | ResultsRead(resultsPath: string, sourceRoot: string, scanType: ScanType)
}
