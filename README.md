# JAS source-code scanners: the scan step

This project models the scan step of the two source-code scanners of the JFrog
Advanced Security (JAS) audit: the IaC scanner (`IacScanManager`) and the
Secrets scanner (`SecretScanManager`). Both follow one per-module protocol in
`Run(module)`:

1. **Skip gate**: if the module disables this scanner, return with no error.
2. **Configure**: resolve the source roots (an error returns); build a config
   document holding exactly one scan entry (roots, results file, type tag,
   exclude patterns) and write it to the session's config file.
3. **Invoke**: run the analyzer with the kind's subcommand, from the directory
   of the analyzer executable.
4. **Collect**: read the results file and append the findings to the manager's
   own results buffer.

`RunIacScan` and `RunSecretsScan` create a manager with an empty buffer, hand
it to the shared scanner, and return either the kind-classified error with no
results (nil) or the accumulated buffer.

## Layout

- `wrappers.dfy` (`Wrappers`): `Option` (Go's nil-or-value) and `Result`
  (Go's `(value, err)`).
- `jas.dfy` (`Jas`): the values the scanners exchange with the `jas` helper
  package; the shared session `JasScanner` (a class: one object shared by
  reference); the helpers as oracles. `Helpers` holds the helpers that compute
  from their arguments (`ShouldSkipScanner`, `GetSourceRoots`,
  `GetExcludePatterns`, `filepath.Dir`, `ParseAnalyzerManagerError`) as
  functions. `Effects` holds, per `Run`, the outcome of each helper that
  touches the outside world (`CreateScannersConfigFile`, `AnalyzerManager.Exec`,
  `GetSourceCodeScanResults`). `Event` records those three actions.
- `scanning.dfy` (`Scanning`): the one manager class both scanners share,
  `ScanManager`, parameterised by a `ScanKind` (type tag, subcommand, kind).
  Its `Run` keeps a ghost trace of the external actions. `RunStep` specifies
  one `Run` (xray/commands/audit/jas/iac/iacscanner.go:52-68); `ConfigFileContent`
  is the config document literal (xray/commands/audit/jas/iac/iacscanner.go:86-95). `Execute` is the same protocol as a state machine
  (Pending, Configuring, Invoking, Collecting, then Skipped, Completed or
  Failed), and `RunStepFollowsStateMachine` proves the two agree. `Drive`
  specifies a sequence of `Run` calls on one manager; the lemmas about it state
  how the buffer accumulates.
- `iac.dfy` (`IacScanner`) and `secrets.dfy` (`SecretsScanner`): the two
  instantiations, `"iac-scan-modules"`/`"iac"` and `"secrets-scan"`/`"sec"`,
  with their constructors and entry points.

The session's `jas.JasScanner.Run`, which iterates modules, is not part of this
model. `DriveScan` stands in for it with the least the scanners rely on: it
calls `Run` once per `Invocation`, in the order given, with the session pointing
at that invocation's config and results files. The caller chooses the
invocations, so no module order and no stopping rule is assumed. The driver's
error is an arbitrary function (`verdict`) of the errors its `Run` calls
returned.

## Model

| member | source | states |
|---|---|---|
| `Scanning.RunStepActions` | xray/commands/audit/jas/iac/iacscanner.go:52-101 | The actions of one `Run`: none on skip; a config is written iff the gate fails and roots resolve; the analyzer runs iff that write succeeded; results are read iff it ran and succeeded; write, exec and read come in that order, each at most once; every config written holds exactly one entry (the roots and exclude patterns as the helpers returned them, the results file name, the kind's type tag); every exec uses the config file, the kind's subcommand and `Dir` of the analyzer path; every read uses the results file and the module's source root |
| `Scanning.RunStepOutcome` | xray/commands/audit/jas/secrets/secretsscanner.go:50-95 | The result of one `Run`: success with nothing appended on skip; otherwise the error of the first failing stage (roots, write, exec, read); success iff skipped or every stage succeeds; findings appended, exactly as read, only when every stage succeeds |
| `Scanning.ScanManager.Run` | xray/commands/audit/jas/secrets/secretsscanner.go:50-66 | The error, the new buffer (old buffer followed by the appended findings) and the new trace are those of `RunStep`; on error or skip the buffer is unchanged; on skip no action is recorded |
| `Scanning.ScanManager.CreateConfigFile` | xray/commands/audit/jas/iac/iacscanner.go:81-97 | A roots error is returned with no write; otherwise one config with exactly one entry (the roots as returned, the results file name, the kind's type tag, the exclude patterns as returned) is written to the config file and the write's outcome is returned |
| `Scanning.ScanManager.RunAnalyzerManager` | xray/commands/audit/jas/secrets/secretsscanner.go:97-99 | The analyzer runs on the config file with the kind's subcommand, from `Dir` of the analyzer path, with the server details; its outcome is returned |
| `Scanning.ScanManager.constructor` | xray/commands/audit/jas/iac/iacscanner.go:18-21 | A manager holds its kind and the shared session; it starts with an empty buffer and no actions |
| `Scanning.Advance` | xray/commands/audit/jas/iac/iacscanner.go:53-66 | Each protocol transition strictly lowers the phase rank and takes at most one external action, keeping the earlier ones |
| `Scanning.Execute` | xray/commands/audit/jas/iac/iacscanner.go:52-67 | The state machine always reaches Skipped, Completed or Failed, keeping every earlier action and adding at most one per transition |
| `Scanning.RunStepFollowsStateMachine` | xray/commands/audit/jas/secrets/secretsscanner.go:50-65 | `RunStep` and the state machine started in Pending take the same actions; Skipped iff the gate holds; Failed iff `RunStep` errs, with the same error; findings appended iff Completed |
| `Scanning.Drive` | xray/commands/audit/jas/iac/iacscanner.go:34 | A sequence of `Run` calls returns one error per call |
| `Scanning.DriveErrors` | xray/commands/audit/jas/iac/iacscanner.go:56-64 | Call i of a sequence returns exactly the error that `Run` returns for that call alone, whatever came before |
| `Scanning.DriveAppends` | xray/commands/audit/jas/iac/iacscanner.go:62-66 | After any sequence of calls the buffer is the old buffer followed by every call's findings in call order: nothing is removed, reordered or altered |
| `Scanning.CollectedLength` | xray/commands/audit/jas/secrets/secretsscanner.go:60-64 | The findings collected over a sequence number the sum of the findings each call read back |
| `Scanning.BufferLength` | xray/commands/audit/jas/iac/iacscanner.go:66 | The buffer's final length is its first length plus the sum of the per-call result lengths |
| `Scanning.DriveSnoc` | xray/commands/audit/jas/secrets/secretsscanner.go:64 | One more call extends the errors, the buffer and the actions by exactly what that call alone produces |
| `Scanning.CollectedConcat` | xray/commands/audit/jas/iac/iacscanner.go:65-66 | Scanning one list of modules then another gives the first list's findings followed by the second's |
| `Scanning.FailedCallsContributeNothing` | xray/commands/audit/jas/secrets/secretsscanner.go:51-62 | A sequence of calls that are all skipped or fail adds nothing to the buffer |
| `Scanning.FailedCallDropsOut` | xray/commands/audit/jas/iac/iacscanner.go:53-64 | A skipped or failing call anywhere in a sequence can be dropped without changing the findings collected |
| `Scanning.ProtocolIndependentOfKind` | xray/commands/audit/jas/iac/iacscanner.go:70-79 | Two kinds whose gates and sub-configurations agree on a module give the same error and findings, and actions that differ only in the type tag, subcommand and kind |
| `Scanning.DriveScan` | xray/commands/audit/jas/secrets/secretsscanner.go:32 | Driving a manager over a sequence of calls leaves the errors, buffer and trace that `Drive` specifies, and the session pointing at the last call's files |
| `Scanning.RunScan` | xray/commands/audit/jas/secrets/secretsscanner.go:29-41 | With a fresh buffer: on the driver's error, exactly what the classifier returns for the kind and that error (possibly nil) and nil results; otherwise no error and the accumulated buffer as `Drive` gives it |
| `IacScanner.NewIacScanManager` | xray/commands/audit/jas/iac/iacscanner.go:45-50 | A new IaC manager is fresh, has the IaC kind and the given session, and an empty buffer |
| `IacScanner.RunIacScan` | xray/commands/audit/jas/iac/iacscanner.go:31-43 | On the driver's error, the classifier's answer for IaC and that error (possibly nil) and nil results (no partial results); otherwise no error and the accumulated buffer |
| `IacScanner.IacRunProtocol` | xray/commands/audit/jas/iac/iacscanner.go:13-16 | An IaC run consults the gate for IaC, takes roots and exclusions from the module's IaC sub-configuration, tags its config entry "iac-scan-modules" and runs the analyzer with "iac" |
| `SecretsScanner.NewSecretsScanManager` | xray/commands/audit/jas/secrets/secretsscanner.go:43-48 | A new Secrets manager is fresh, has the Secrets kind and the given session, and an empty buffer |
| `SecretsScanner.RunSecretsScan` | xray/commands/audit/jas/secrets/secretsscanner.go:29-41 | On the driver's error, the classifier's answer for Secrets and that error (possibly nil) and nil results; otherwise no error and the accumulated buffer |
| `SecretsScanner.SecretsRunProtocol` | xray/commands/audit/jas/secrets/secretsscanner.go:79-99 | A Secrets run consults the gate for Secrets, takes roots and exclusions from the module's Secrets sub-configuration, tags its config entry "secrets-scan" and runs the analyzer with "sec" |
| `SecretsScanner.OnlyTagsDifferFromIac` | xray/commands/audit/jas/secrets/secretsscanner.go:12-15 | The Secrets and IaC scanners differ only in the type tag and subcommand: same protocol, same errors and findings, same config record shape |

## Left out

- The helpers' own rules (when a scanner is skipped, how roots fall back to the module's source root, which exclusions are defaulted, how findings are parsed and their paths made relative): they live in the `jas` package, which is not part of this model; each is an oracle.
- Empty roots: the scanners do not reject an empty root list themselves; whether `GetSourceRoots` does is up to that helper, so the model does not claim it.
- The YAML serialisation of the config document (keys `scans`, `roots`, `output`, `type`, `skipped-folders`): the model records the document as a value.
- `filepath.Dir`: an oracle (`Helpers.dir`); the model states that the working directory is `Dir` of the analyzer's full path, not what `Dir` computes.
- `utils.ParseAnalyzerManagerError`: an oracle returning a Go `error`, which may be nil (`None`); the model states which kind it is asked to classify for and which error it is given, and returns its answer unchanged, nil included.
- `jas.JasScanner.Run`, the module iteration: not part of this model; `DriveScan` calls `Run` for caller-chosen invocations and combines their errors by a caller-chosen function, so no order or stopping rule is claimed.
- The analyzer subprocess, server and authentication details (passed through unchanged), and all logging.
- Concurrency: nothing in the scanners is concurrent; appends are sequential.
- The fields of a finding are carried but never inspected, as in the scanners.
- `artifactory/commands/buildinfo/buildappend.go`: REST and file I/O around build info, not part of the scan step.
