# A verified model of the detection run of Synopsys Detect

Synopsys Detect inspects a source tree, runs the package-manager "detectables" whose
signatures it finds, and sends the resulting dependency information to Black Duck (and
optionally Polaris). This project models, in Dafny, the decision logic at the core of
that run, and proves what each piece promises:

- **The run** (`RunManager`). Polaris runs first. The universal tools (Docker, Bazel,
  detector) follow; once one of them fails, the `||` short-circuit skips the rest. Then
  the project is decided. Finally the Black Duck product runs: a rapid scan when in rapid
  mode and online; otherwise project creation, BDIO upload, the signature, binary and
  impact-analysis scans, the code-location accumulator, and the post actions. The first
  operation that throws ends the run.
- **The Black Duck operations.**
  - Signature scan: online versus offline scanner arguments, returned data or failure
    events.
  - Full-scan post-processing: the report timeout in milliseconds, with Java `long`
    wrap-around, and when a BOM result is published.
  - Project creation: the unmap gate.
  - `UniversalToolsResult`: the success/failure envelope.
- **Rapid-mode post actions** (`BlackDuckRapidModePostActions`):
  - the policy names printed per component;
  - whether a component violates policy;
  - the insertion-ordered set of violating components;
  - the single policy-violation exit code and its pluralised message;
  - the name of the JSON result file.
- **Detectable lifecycles.** The applicable/extractable/extract phases of the Bitbake and
  Go vendor detectables and of the legacy Maven `pom.groovy` strategy, and the state each
  phase hands to the next.
- **Two line-oriented pipelines, as their tests fix them.** The Bazel FILTER step, and
  the yarn-lock key/value element parser with the entry builder and `YarnLockEntry`.
- **Small value types.** `RebarParseResult`; `Properties`, whose sorted keys are proved
  to be a sorted permutation; the fluent `Property` of the detect configuration; and the
  message of `ValueParseException`.

## How the model is built

- **Stateful operations** are Dafny classes and methods with `modifies` clauses:
  - the run and the operations themselves;
  - the detectables, whose fields carry state from phase to phase;
  - the yarn-lock builder and the `Property` builder;
  - the code-location accumulator.
- **Specification functions.** Each method's `ensures` ties its result and new state to a
  function of its inputs: `PlannedOperations` for the run, `ViolatedComponents` and
  `PerformLog` for the rapid post actions, `ScanOutcome` and `FailureEvents` for the
  signature scan, and so on. Lemmas prove what the source promises about those functions.
- **Collaborators.** The services, scanners, file finders, resolvers and extractors are
  abstract function-valued inputs. Their effects are appends to logs:
  - `EventSystem.events`;
  - `BlackDuckServices.calls`;
  - the logger's lines;
  - the run's operation log.
- **`Requirements.result()`.** How the accumulator reaches its verdict is not shown. It is
  an abstract `verdict` applied to the log of what the phase required and what each
  lookup found.
- **The run context.** Each operation the run executes is recorded in the operation log.
  What an operation hands back is a field of the `RunContext` value: a tool's failure
  flag, the created project, the code-location data.
- **Exceptions.** Whether an operation ends by throwing is a field of the run context,
  `operationThrows`. Polaris and phone-home never throw: `runPolarisProduct` declares
  no checked exception, and phone-home is started through `Optional.ifPresent`, whose
  `Consumer` cannot throw one. Nothing between an operation and the caller of `run` catches what it throws, so
  the run stops at the first operation that throws. It has recorded that operation
  in the log and none after it. `Completion` (a value or `Abrupt`) and `threw` results
  carry the abrupt end out of each method. Inside the Black Duck operations the same
  holds for the services they call: a service that throws ends `execute`.

## Model

Paths are relative to the repository root.

| member | source | states |
|---|---|---|
| RapidMode.CheckErrorsAndLog | src/main/java/com/synopsys/integration/detect/workflow/blackduck/developer/BlackDuckRapidModePostActions.java:141-173 | The flag returned is true iff some violation has a non-blank error message. The lines logged are, per violation in order, its error then its warning, each only when not blank. |
| RapidMode.ErrorsIgnoreWarnings | src/main/java/com/synopsys/integration/detect/workflow/blackduck/developer/BlackDuckRapidModePostActions.java:141-173 | Two violation lists with the same error messages give the same error flag, whatever their warning messages. |
| RapidMode.ErrorLoggedIffHasErrorMessage | src/main/java/com/synopsys/integration/detect/workflow/blackduck/developer/BlackDuckRapidModePostActions.java:143-149 | Some error line is logged iff some violation has a non-blank error message. |
| RapidMode.PrintedPolicyNames | src/main/java/com/synopsys/integration/detect/workflow/blackduck/developer/BlackDuckRapidModePostActions.java:70-88 | A name is printed iff it is a violating policy name of the component and no vulnerability and no license violation names it. No name is printed twice. |
| RapidMode.PrintedPolicyNamesKeepOrder | src/main/java/com/synopsys/integration/detect/workflow/blackduck/developer/BlackDuckRapidModePostActions.java:70-83 | The printed names are a subsequence of the component's distinct policy names in first-occurrence order (the LinkedHashSet's order). |
| RapidMode.ViolatedComponentsMembers | src/main/java/com/synopsys/integration/detect/workflow/blackduck/developer/BlackDuckRapidModePostActions.java:84-100 | A name is in the violated set iff some result of that name violates. A result violates when its vulnerability policy names are non-empty and one vulnerability violation has a non-blank error, or the same holds for its licenses. |
| RapidMode.ViolatedComponentsOrder | src/main/java/com/synopsys/integration/detect/workflow/blackduck/developer/BlackDuckRapidModePostActions.java:65-99 | The violated set holds no duplicates and lists the violating components in the order they first appear in the results. |
| RapidMode.PerformStep | src/main/java/com/synopsys/integration/detect/workflow/blackduck/developer/BlackDuckRapidModePostActions.java:67-100 | One more result appends that component's log lines. It adds its name to the violated set iff it violates and the name is not yet there (`LinkedHashSet.add`). |
| RapidMode.DecimalTextRoundTrip | src/main/java/com/synopsys/integration/detect/workflow/blackduck/developer/BlackDuckRapidModePostActions.java:182-186 | Reading the `%d` text of a count back as a decimal number gives the count. |
| RapidMode.ViolationMessageSingular | src/main/java/com/synopsys/integration/detect/workflow/blackduck/developer/BlackDuckRapidModePostActions.java:175-187 | For one component the message is "Black Duck found: 1 component in violation". |
| RapidMode.ViolationMessagePlural | src/main/java/com/synopsys/integration/detect/workflow/blackduck/developer/BlackDuckRapidModePostActions.java:175-187 | For any other count the message is "Black Duck found: N components in violation", and N can be read back from it. |
| RapidMode.JsonScanFileName | src/main/java/com/synopsys/integration/detect/workflow/blackduck/developer/BlackDuckRapidModePostActions.java:110-112 | The file name is the escaped project name, "_", the escaped version and "_BlackDuck_DeveloperMode_Result.json", each at its position. |
| RapidMode.PolicyEventsIffViolation | src/main/java/com/synopsys/integration/detect/workflow/blackduck/developer/BlackDuckRapidModePostActions.java:103-105 | At most one event is published, and one is iff some component violates. It is a FAILURE_POLICY_VIOLATION exit code whose message counts the violated set. |
| RapidMode.RapidModePostActions.GenerateJsonScanOutput | src/main/java/com/synopsys/integration/detect/workflow/blackduck/developer/BlackDuckRapidModePostActions.java:108-128 | The file written is the one named by `JsonScanFileName`, and the flag says whether writing it succeeded. |
| RapidMode.RapidModePostActions.ReportComponent | src/main/java/com/synopsys/integration/detect/workflow/blackduck/developer/BlackDuckRapidModePostActions.java:67-100 | Returns whether the component violates. Appends its policy-rule lines, then the vulnerability checks, then the license checks; each check is logged only when its policy-name set is non-empty. |
| RapidMode.RapidModePostActions.ReportComponents | src/main/java/com/synopsys/integration/detect/workflow/blackduck/developer/BlackDuckRapidModePostActions.java:65-101 | The loop over results returns exactly the violated set, and appends every component's log in result order. |
| RapidMode.RapidModePostActions.Perform | src/main/java/com/synopsys/integration/detect/workflow/blackduck/developer/BlackDuckRapidModePostActions.java:64-128 | When the output file is written, all component logs and the policy event are appended. Otherwise "Cannot create rapid scan output file" is thrown with FAILURE_UNKNOWN_ERROR, and nothing is logged or published. |
| RunManagement.InvokedToolsArePrefix | src/main/java/com/synopsys/integration/detect/lifecycle/run/RunManager.java:102-129 | The tools executed are a prefix of the gated tools. Every executed tool but the last succeeded. When a gated tool was skipped, the last executed one failed. |
| RunManagement.InvokedToolsFailIff | src/main/java/com/synopsys/integration/detect/lifecycle/run/RunManager.java:102-129 | Some executed tool failed iff some gated tool would fail. |
| RunManagement.ToolGates | src/main/java/com/synopsys/integration/detect/lifecycle/run/RunManager.java:105-123 | Docker and Bazel are gated on rapid mode being off and on the filter. The detector is gated on the filter alone. No other tool is gated here. |
| RunManagement.ToolRunsIffNoEarlierFailure | src/main/java/com/synopsys/integration/detect/lifecycle/run/RunManager.java:105-125 | A gated tool's `execute` is invoked iff no gated tool before it failed. |
| RunManagement.ToolsRunByBlocks | src/main/java/com/synopsys/integration/detect/lifecycle/run/RunManager.java:102-129 | The three tool blocks, each gated and skipped after a failure, run exactly the prefix up to the first failure. |
| RunManagement.ToolBlocksRunToolsRun | src/main/java/com/synopsys/integration/detect/lifecycle/run/RunManager.java:102-129 | The three blocks together plan exactly the operations of the tools run, in order. When none of them throws, the final `anythingFailed` flag is whether one of them failed. |
| RunManagement.PolarisRunsIff | src/main/java/com/synopsys/integration/detect/lifecycle/run/RunManager.java:73-158 | The Polaris operation runs iff the product data asks for Polaris, the filter includes POLARIS and rapid mode is off. |
| RunManagement.UniversalResultFailureIff | src/main/java/com/synopsys/integration/detect/lifecycle/run/RunManager.java:136-147 | The universal result fails iff some executed tool failed, iff some gated tool would fail. It carries the decided project either way. |
| RunManagement.AggregateOptionsReceiveAnyFailed | src/main/java/com/synopsys/integration/detect/lifecycle/run/RunManager.java:79-84 | With Black Duck, the aggregate-options operation is given exactly `anyFailed()`, right after the project decision. |
| RunManagement.RapidOnlineRunsOnlyRapidScan | src/main/java/com/synopsys/integration/detect/lifecycle/run/RunManager.java:169-175 | In rapid mode and online, Black Duck runs only BDIO generation and the rapid scan: no project creation, signature scan, code-location results or post actions. |
| RunManagement.OfflineCreatesNoProject | src/main/java/com/synopsys/integration/detect/lifecycle/run/RunManager.java:167-243 | Offline, the wrapper stays null. There is no project creation, phone-home, rapid scan, binary scan or post actions, and impact analysis sees a null project version. |
| RunManagement.WaitableCodeLocations | src/main/java/com/synopsys/integration/detect/lifecycle/run/RunManager.java:188-223 | Waited-on data comes from three sources: the present upload result, the signature result when included, and the binary result when included and online. Impact-analysis names are added only when impact analysis runs. |
| RunManagement.RunManager.Run | src/main/java/com/synopsys/integration/detect/lifecycle/run/RunManager.java:64-93 | The operations executed are `PlannedOperations(ctx)` up to and including the first one that throws, and the run throws iff one of them does. The ProjectNameVersionChosen event of the decided project is published iff no universal operation threw. |
| RunManagement.ExecutedOperationsStopAtFirstThrow | src/main/java/com/synopsys/integration/detect/lifecycle/run/RunManager.java:64-93 | The operations executed are a prefix of the planned ones. Every one but the last completed normally. The run throws iff the last one threw, and a run in which nothing throws executes every planned operation. |
| RunManagement.PolarisNeverThrows | src/main/java/com/synopsys/integration/detect/lifecycle/run/RunManager.java:150-159 | The Polaris product, which declares no checked exception, never throws, so it is always executed in full. |
| RunManagement.ProjectCreationThrowBoundsRun | src/main/java/com/synopsys/integration/detect/lifecycle/run/RunManager.java:161-183 | When the project creation of a full online scan throws, the run throws. Every operation it executed is Polaris, universal, the aggregate options, BDIO generation, phone-home or the creation. |
| RunManagement.ProjectCreationThrowStopsRun | src/main/java/com/synopsys/integration/detect/lifecycle/run/RunManager.java:176-243 | When the project creation of a full online scan throws, the run throws, and no upload, scan, code-location calculation or post processing is executed. |
| RunManagement.RunManager.RunPolarisProduct | src/main/java/com/synopsys/integration/detect/lifecycle/run/RunManager.java:150-158 | Executes Polaris iff the filter includes it and rapid mode is off. |
| RunManagement.RunManager.ExecuteTool | src/main/java/com/synopsys/integration/detect/lifecycle/run/RunManager.java:107-125 | Executes one tool operation. It returns whether the operation threw, and when it did not, the tool's failure flag. |
| RunManagement.RunManager.RunGatedTool | src/main/java/com/synopsys/integration/detect/lifecycle/run/RunManager.java:105-111 | A tool block: with its gate open, the tool runs unless an earlier one failed. The block throws iff the tool is run and throws. Otherwise the tool's failure is or-ed into the flag. |
| RunManagement.RunManager.RunToolBlocks | src/main/java/com/synopsys/integration/detect/lifecycle/run/RunManager.java:102-129 | Runs the Docker, Bazel and detector blocks. It executes the operations of the tools run up to the first that throws, and throws iff one does. Otherwise the flag it returns is whether a tool failed. |
| RunManagement.RunManager.ExecuteOperation | src/main/java/com/synopsys/integration/detect/lifecycle/run/RunManager.java:64-245 | Records one operation executed. It throws iff the operation may throw and the context says it does. |
| RunManagement.RunManager.RunUniversalProjectTools | src/main/java/com/synopsys/integration/detect/lifecycle/run/RunManager.java:95-148 | Executes the tools run, then the project decision, up to the first that throws. It ends abruptly iff one throws. Otherwise it returns `UniversalResult(ctx)` and publishes the chosen project; after a throw nothing is published. |
| RunManagement.RunManager.RunBlackDuckProduct | src/main/java/com/synopsys/integration/detect/lifecycle/run/RunManager.java:161-245 | Executes `BlackDuckOperations(ctx, nameVersion)` up to and including the first that throws, and throws iff one of them does. |
| RunManagement.RunManager.RunProjectCreation | src/main/java/com/synopsys/integration/detect/lifecycle/run/RunManager.java:176-183 | Online, starts phone-home and creates the project, stopping if that throws; offline it does nothing. It ends abruptly iff the creation throws. Otherwise it hands on the created project, or none offline. |
| RunManagement.RunManager.RunScans | src/main/java/com/synopsys/integration/detect/lifecycle/run/RunManager.java:188-229 | Executes the upload and the scans in order, up to the first that throws, and throws iff one does. When none throws, the accumulator holds exactly the waitable and non-waitable code locations. |
| RunManagement.RunManager.RunSignatureScan | src/main/java/com/synopsys/integration/detect/lifecycle/run/RunManager.java:195-203 | When included, runs the signature scan with the project and docker tar. It throws iff the scan throws. Otherwise it adds the scan's present result as waitable. |
| RunManagement.RunManager.RunBinaryScan | src/main/java/com/synopsys/integration/detect/lifecycle/run/RunManager.java:206-215 | When included and online, runs the binary scan. It throws iff the scan throws. Otherwise it adds the scan's present result as waitable. |
| RunManagement.RunManager.RunImpactAnalysis | src/main/java/com/synopsys/integration/detect/lifecycle/run/RunManager.java:216-229 | When included and enabled, runs impact analysis with the project version. It throws iff the analysis throws. Otherwise it adds the analysis's names as non-waitable. |
| RunManagement.RunManager.RunPostScan | src/main/java/com/synopsys/integration/detect/lifecycle/run/RunManager.java:231-243 | Calculates the code-location results from the accumulator. When that does not throw and the run is online, it runs the post actions. It throws iff one of them does. |
| RunManagement.CodeLocationAccumulator.AddWaitableCodeLocation | src/main/java/com/synopsys/integration/detect/lifecycle/run/RunManager.java:188-190 | Appends one waitable code location and leaves the non-waitable ones. |
| RunManagement.CodeLocationAccumulator.AddNonWaitableCodeLocation | src/main/java/com/synopsys/integration/detect/lifecycle/run/RunManager.java:223 | Appends the non-waitable names and leaves the waitable ones. |
| SignatureScanning.ResultText | src/main/java/com/synopsys/integration/detect/lifecycle/run/operation/blackduck/SignatureScanOperation.java:73 | The result's text is "SUCCESS" iff the scan succeeded. |
| SignatureScanning.ScanInvocation | src/main/java/com/synopsys/integration/detect/lifecycle/run/operation/blackduck/SignatureScanOperation.java:68 | The scanner is given the input's project and docker tar. |
| SignatureScanning.ScanConnectionIffOnline | src/main/java/com/synopsys/integration/detect/lifecycle/run/operation/blackduck/SignatureScanOperation.java:61-68 | With null or offline run data the scanner gets no creation service and no server config. Online it gets both, taken from the run data and its factory. |
| SignatureScanning.CreationDataReturnedIff | src/main/java/com/synopsys/integration/detect/lifecycle/run/operation/blackduck/SignatureScanOperation.java:69-70 | Creation data is returned iff the scan succeeded and produced some, and it is the scanner's. |
| SignatureScanning.FailureReported | src/main/java/com/synopsys/integration/detect/lifecycle/run/operation/blackduck/SignatureScanOperation.java:71-73 | A failed scan returns nothing and publishes exactly a SIGNATURE_SCAN failure status, then one signature-scanner issue holding "FAILURE". A successful scan publishes nothing. |
| SignatureScanning.SuccessWithoutDataIsSilent | src/main/java/com/synopsys/integration/detect/lifecycle/run/operation/blackduck/SignatureScanOperation.java:60-75 | A successful scan without creation data returns nothing and publishes nothing. |
| SignatureScanning.SignatureScannerTool.RunScanTool | src/main/java/com/synopsys/integration/detect/lifecycle/run/operation/blackduck/SignatureScanOperation.java:68 | Records the scan started. It ends abruptly iff the scanner throws for that invocation; otherwise it returns the scanner's outcome. |
| SignatureScanning.SignatureScanOperation.Execute | src/main/java/com/synopsys/integration/detect/lifecycle/run/operation/blackduck/SignatureScanOperation.java:59-76 | Starts exactly one scan with `ScanInvocation`'s arguments and throws iff the scanner does. Otherwise it returns `ScanOutcome` of the result and publishes `FailureEvents` of it. |
| FullScanPostProcessing.WrapLong | src/main/java/com/synopsys/integration/detect/lifecycle/run/operation/blackduck/FullScanPostProcessingOperation.java:59 | Java `long` arithmetic: the result is a long congruent to the exact value modulo 2^64, equal to it when it fits. |
| FullScanPostProcessing.ReportTimeoutIsMilliseconds | src/main/java/com/synopsys/integration/detect/lifecycle/run/operation/blackduck/FullScanPostProcessingOperation.java:59 | When the product fits in a long, the report timeout is the detect timeout in milliseconds, and dividing by 1000 gives the seconds back. |
| FullScanPostProcessing.ReportTimeoutWraps | src/main/java/com/synopsys/integration/detect/lifecycle/run/operation/blackduck/FullScanPostProcessingOperation.java:59 | The smallest timeout whose product overflows gives a negative report timeout. |
| FullScanPostProcessing.ComponentsLink | src/main/java/com/synopsys/integration/detect/lifecycle/run/operation/blackduck/FullScanPostProcessingOperation.java:64-67 | A link is present iff the wrapper, its version view and the view's components link all are, and it is that link. |
| FullScanPostProcessing.BomResultPublishedIff | src/main/java/com/synopsys/integration/detect/lifecycle/run/operation/blackduck/FullScanPostProcessingOperation.java:63-73 | At most one event is published. There is one iff there are upload targets or SIGNATURE_SCAN is included, and a components link exists. It is the BOM result carrying that link. |
| FullScanPostProcessing.NoLinkNoResult | src/main/java/com/synopsys/integration/detect/lifecycle/run/operation/blackduck/FullScanPostProcessingOperation.java:64-69 | A null wrapper, or a version view without a components link, publishes nothing. |
| FullScanPostProcessing.PostActionsPerformedOnce | src/main/java/com/synopsys/integration/detect/lifecycle/run/operation/blackduck/FullScanPostProcessingOperation.java:58-61 | There is exactly one post-actions call. It carries the wait data, the wrapper, the project and the timeout in seconds. |
| FullScanPostProcessing.PostProcessingStopsAtThrow | src/main/java/com/synopsys/integration/detect/lifecycle/run/operation/blackduck/FullScanPostProcessingOperation.java:57-61 | When the report service throws, the post actions are never performed. Otherwise both calls are made, and the operation throws iff one of them does. |
| FullScanPostProcessing.FullScanPostProcessingOperation.Execute | src/main/java/com/synopsys/integration/detect/lifecycle/run/operation/blackduck/FullScanPostProcessingOperation.java:57-74 | Calls the report service with the wrapped millisecond timeout, then the post actions, stopping at the first call that throws. It throws iff one does. It publishes `BomEvents` only when neither throws. |
| ProjectCreation.UnmapIff | src/main/java/com/synopsys/integration/detect/lifecycle/run/operation/blackduck/ProjectCreationOperation.java:58-64 | The project is created or updated first. Code locations are unmapped iff a wrapper came back and unmapping is asked for, and then of the wrapper's version view. There is no other call. |
| ProjectCreation.CreateFailureSkipsUnmap | src/main/java/com/synopsys/integration/detect/lifecycle/run/operation/blackduck/ProjectCreationOperation.java:52-64 | When the create-or-update call throws, it is the only call made and the operation throws; nothing is unmapped. When it returns, the operation throws iff the unmap is planned and throws. |
| ProjectCreation.ProjectCreationOperation.Execute | src/main/java/com/synopsys/integration/detect/lifecycle/run/operation/blackduck/ProjectCreationOperation.java:52-66 | Makes the calls of `ProjectCreationCalls` up to the first that throws, and throws iff one does. Otherwise it returns exactly the wrapper the create-or-update call returned. |
| UniversalTools.Failure | src/main/java/com/synopsys/integration/detect/tool/UniversalToolsResult.java:57-59 | `failure(nv)` has `anyFailed()` and carries `nv`. |
| UniversalTools.Success | src/main/java/com/synopsys/integration/detect/tool/UniversalToolsResult.java:61-63 | `success(nv)` does not have `anyFailed()` and carries `nv`. |
| UniversalTools.ResultIsOneOfTheFactories | src/main/java/com/synopsys/integration/detect/tool/UniversalToolsResult.java:44-67 | Every result is one of the two factories' results for its own name-version, and `anyFailed()` tells which. |
| UniversalTools.FactoriesDiffer | src/main/java/com/synopsys/integration/detect/tool/UniversalToolsResult.java:57-63 | No failure result equals a success result. |
| Detectables.Requirements.RequireFile | detectable/src/main/java/com/synopsys/integration/detectable/detectables/bitbake/BitbakeDetectable.java:63 | Looks the file up in the environment's directory, returns what the finder found, and records the request with its answer. |
| Detectables.Requirements.RequireFileIn | detectable/src/main/java/com/synopsys/integration/detectable/detectables/go/vendor/GoVendorDetectable.java:61 | Looks the file up in the given, possibly missing, directory and records the request with its answer. |
| Detectables.Requirements.RequireExecutable | detectable/src/main/java/com/synopsys/integration/detectable/detectables/bitbake/BitbakeDetectable.java:77 | Returns what the resolver answered and records the request under the executable's name. |
| Detectables.Requirements.Explain | detectable/src/main/java/com/synopsys/integration/detectable/detectables/bitbake/BitbakeDetectable.java:68 | Records the explanation. |
| Bitbake.ApplicableDecision | detectable/src/main/java/com/synopsys/integration/detectable/detectables/bitbake/BitbakeDetectable.java:61-72 | The build-env script is requested first. Null or empty package names give PropertyInsufficient with the fixed message, whatever the lookup found. Otherwise "Bitbake Package Names" is explained as provided, and the accumulator decides. |
| Bitbake.BitbakeDetectable.Applicable | detectable/src/main/java/com/synopsys/integration/detectable/detectables/bitbake/BitbakeDetectable.java:60-72 | Stores the script lookup's answer in `foundBuildEnvScript` and returns `ApplicableVerdict`. |
| Bitbake.BitbakeDetectable.Extractable | detectable/src/main/java/com/synopsys/integration/detectable/detectables/bitbake/BitbakeDetectable.java:74-79 | Stores the resolved bash in `bashExe` and returns the verdict of a fresh accumulator that required only "bash". |
| Bitbake.BitbakeDetectable.Extract | detectable/src/main/java/com/synopsys/integration/detectable/detectables/bitbake/BitbakeDetectable.java:81-84 | Calls the extractor with the directory, the stored script, the options and the stored bash. |
| Bitbake.RunLifecycle | detectable/src/main/java/com/synopsys/integration/detectable/detectables/bitbake/BitbakeDetectable.java:48-84 | Run in order, the extractor receives the script found by `applicable` and the bash resolved by `extractable`. |
| GoVendor.VendorJsonInsideVendorDir | detectable/src/main/java/com/synopsys/integration/detectable/detectables/go/vendor/GoVendorDetectable.java:57-63 | "vendor" is required in the environment's directory first, then "vendor.json" in whatever that returned. The stored file is the second answer. |
| GoVendor.GoVendorDetectable.Applicable | detectable/src/main/java/com/synopsys/integration/detectable/detectables/go/vendor/GoVendorDetectable.java:57-63 | Stores the found vendor.json and returns the accumulator's verdict on the two requests. |
| GoVendor.GoVendorDetectable.Extractable | detectable/src/main/java/com/synopsys/integration/detectable/detectables/go/vendor/GoVendorDetectable.java:65-68 | Always Passed. |
| GoVendor.GoVendorDetectable.Extract | detectable/src/main/java/com/synopsys/integration/detectable/detectables/go/vendor/GoVendorDetectable.java:70-73 | Extracts from the stored vendor.json. |
| GoVendor.RunLifecycle | detectable/src/main/java/com/synopsys/integration/detectable/detectables/go/vendor/GoVendorDetectable.java:49-73 | Run in order, the extractor receives the vendor.json found by `applicable`. |
| MavenPom.Applicable | src/main/groovy/com/blackducksoftware/integration/hub/detect/extraction/bomtool/maven/MavenPomStrategy.java:36-43 | FileNotFound("pom.groovy") iff the finder returns null, Passed iff it finds the file. |
| MavenPom.ExtractableVerdict | src/main/groovy/com/blackducksoftware/integration/hub/detect/extraction/bomtool/maven/MavenPomStrategy.java:49-53 | ExecutableNotFound("mvn") iff no Maven executable was found, Passed iff one was. |
| MavenPom.VerdictsNameWhatIsMissing | src/main/groovy/com/blackducksoftware/integration/hub/detect/extraction/bomtool/maven/MavenPomStrategy.java:36-54 | `applicable` gives only Passed or FileNotFound("pom.groovy"); `extractable` only Passed or ExecutableNotFound("mvn"). |
| MavenPom.MavenPomStrategy.ApplicableIn | src/main/groovy/com/blackducksoftware/integration/hub/detect/extraction/bomtool/maven/MavenPomStrategy.java:36-43 | Looks up "pom.groovy" and returns the verdict `Applicable` gives for the answer. |
| MavenPom.MavenPomStrategy.Extractable | src/main/groovy/com/blackducksoftware/integration/hub/detect/extraction/bomtool/maven/MavenPomStrategy.java:46-54 | Always stores the finder's answer in `context.mavenExe`, even none, and returns `ExtractableVerdict` of it. |
| BazelFilter.Applies | detectable/src/test/java/com/synopsys/integration/detectable/detectables/bazel/functional/bazel/pipeline/stepexecutor/StepExecutorFilterTest.java:24-25 | The filter executor applies to a step type iff it is FILTER. |
| BazelFilter.Process | detectable/src/test/java/com/synopsys/integration/detectable/detectables/bazel/functional/bazel/pipeline/stepexecutor/StepExecutorFilterTest.java:26-31 | The output is a subsequence of the input. A line is in it iff it is an input line matching some pattern of the step. |
| BazelFilter.ProcessKeepsOrDropsWholeLines | detectable/src/test/java/com/synopsys/integration/detectable/detectables/bazel/functional/bazel/pipeline/stepexecutor/StepExecutorFilterTest.java:28-31 | Lines are kept unchanged or dropped whole: all matching gives the input back, none matching gives nothing. |
| BazelFilter.ProcessIdempotent | detectable/src/test/java/com/synopsys/integration/detectable/detectables/bazel/functional/bazel/pipeline/stepexecutor/StepExecutorFilterTest.java:26-29 | Filtering twice with the same step is filtering once. |
| BazelFilter.ProcessConcat | detectable/src/test/java/com/synopsys/integration/detectable/detectables/bazel/functional/bazel/pipeline/stepexecutor/StepExecutorFilterTest.java:28-29 | Filtering a concatenation of lines is concatenating the filtered parts, so input order is kept. |
| BazelFilter.TagsLineMatches | detectable/src/test/java/com/synopsys/integration/detectable/detectables/bazel/functional/bazel/pipeline/stepexecutor/StepExecutorFilterTest.java:20-26 | The tags line contains "maven_coordinates=" and so matches `.*maven_coordinates=.*`. |
| BazelFilter.NameLineDoesNotMatch | detectable/src/test/java/com/synopsys/integration/detectable/detectables/bazel/functional/bazel/pipeline/stepexecutor/StepExecutorFilterTest.java:19-26 | The name line does not match the pattern. |
| BazelFilter.FilterKeepsMavenCoordinates | detectable/src/test/java/com/synopsys/integration/detectable/detectables/bazel/functional/bazel/pipeline/stepexecutor/StepExecutorFilterTest.java:22-32 | The test: the executor applies to FILTER, and filtering the name and tags lines gives exactly the tags line, unchanged. |
| YarnLock.EntryGettersReturnConstructorArguments | detectable/src/main/java/com/synopsys/integration/detectable/detectables/yarn/parse/entry/YarnLockEntry.java:34-50 | Each getter returns what the constructor was given. |
| YarnLock.BuiltEntryIff | detectable/src/test/java/com/synopsys/integration/detectable/detectables/yarn/unit/parse/entry/element/YarnLockKeyValuePairElementParserTest.java:49-55 | An entry is built iff an id was added and a version set, and then it carries those ids, that version and the dependencies. |
| YarnLock.YarnLockEntryBuilder.AddId | detectable/src/test/java/com/synopsys/integration/detectable/detectables/yarn/unit/parse/entry/element/YarnLockKeyValuePairElementParserTest.java:50 | Appends the id and leaves the version and dependencies. |
| YarnLock.YarnLockEntryBuilder.SetVersion | detectable/src/test/java/com/synopsys/integration/detectable/detectables/yarn/unit/parse/entry/element/YarnLockKeyValuePairElementParserTest.java:22-23 | Sets the version and leaves the ids and dependencies. |
| YarnLock.YarnLockEntryBuilder.Build | detectable/src/test/java/com/synopsys/integration/detectable/detectables/yarn/unit/parse/entry/element/YarnLockKeyValuePairElementParserTest.java:54-56 | Returns `BuiltEntry` of the builder's fields. |
| YarnLock.FourSyntaxesAgree | detectable/src/test/java/com/synopsys/integration/detectable/detectables/yarn/unit/parse/entry/element/YarnLockKeyValuePairElementParserTest.java:26-44 | For any key and plain value, `key value`, `key "value"`, `key: value` and `key: "value"`, indented, all split into that key and the same unquoted value. |
| YarnLock.VersionLineSplits | detectable/src/test/java/com/synopsys/integration/detectable/detectables/yarn/unit/parse/entry/element/YarnLockKeyValuePairElementParserTest.java:26-47 | Every shape of a "version" line splits into "version" and its value, so the "version" parser applies to it. |
| YarnLock.YarnLockKeyValuePairElementParser.ParseElement | detectable/src/test/java/com/synopsys/integration/detectable/detectables/yarn/unit/parse/entry/element/YarnLockKeyValuePairElementParserTest.java:51-52 | Writes the value of the line at the given index through the configured setter (`setVersion`) and touches nothing else. Returns the index of the next unconsumed line. |
| YarnLock.ParseVersionLine | detectable/src/test/java/com/synopsys/integration/detectable/detectables/yarn/unit/parse/entry/element/YarnLockKeyValuePairElementParserTest.java:46-57 | The test's `doTest` for any shape and plain value: the parser applies, and the built entry is present with the one id, that value as version and no dependencies. |
| YarnLock.TestVersionValueIsPlain | detectable/src/test/java/com/synopsys/integration/detectable/detectables/yarn/unit/parse/entry/element/YarnLockKeyValuePairElementParserTest.java:28 | "test.version.value" is a plain value. |
| YarnLock.TestLineBare | detectable/src/test/java/com/synopsys/integration/detectable/detectables/yarn/unit/parse/entry/element/YarnLockKeyValuePairElementParserTest.java:27-29 | The first test line is the bare shape of "version" and the test value. |
| YarnLock.TestLineQuoted | detectable/src/test/java/com/synopsys/integration/detectable/detectables/yarn/unit/parse/entry/element/YarnLockKeyValuePairElementParserTest.java:31-34 | The second test line is the quoted shape. |
| YarnLock.TestLineColonBare | detectable/src/test/java/com/synopsys/integration/detectable/detectables/yarn/unit/parse/entry/element/YarnLockKeyValuePairElementParserTest.java:36-39 | The third test line is the colon, bare shape. |
| YarnLock.TestLineColonQuoted | detectable/src/test/java/com/synopsys/integration/detectable/detectables/yarn/unit/parse/entry/element/YarnLockKeyValuePairElementParserTest.java:41-44 | The fourth test line is the colon, quoted shape. |
| Rebar.WithProject | detectable/src/main/java/com/synopsys/integration/detectable/detectables/rebar/model/RebarParseResult.java:34-37 | The two-argument constructor gives a present name-version equal to its argument, and the code location given. |
| Rebar.WithoutProject | detectable/src/main/java/com/synopsys/integration/detectable/detectables/rebar/model/RebarParseResult.java:39-42 | The one-argument constructor gives an empty name-version and the code location given. |
| Rebar.ConstructorsCoverAndDetermine | detectable/src/main/java/com/synopsys/integration/detectable/detectables/rebar/model/RebarParseResult.java:30-50 | Every result is what one of the constructors builds from its own getters. |
| Rebar.WithProjectInjective | detectable/src/main/java/com/synopsys/integration/detectable/detectables/rebar/model/RebarParseResult.java:34-37 | Equal results of the two-argument constructor come from equal arguments. |
| ConfigurationProperties.Properties.GetPropertyKeys | configuration/src/main/java/com/synopsys/integration/configuration/property/Properties.java:35-39 | As many keys as properties, the i-th being the i-th property's key. |
| ConfigurationProperties.LessOrEqualTotal | configuration/src/main/java/com/synopsys/integration/configuration/property/Properties.java:41-45 | Java's natural string order compares every two strings. |
| ConfigurationProperties.LessOrEqualTransitive | configuration/src/main/java/com/synopsys/integration/configuration/property/Properties.java:41-45 | The order is transitive. |
| ConfigurationProperties.LessOrEqualAntisymmetric | configuration/src/main/java/com/synopsys/integration/configuration/property/Properties.java:41-45 | The order is antisymmetric. |
| ConfigurationProperties.InsertionSortCorrect | configuration/src/main/java/com/synopsys/integration/configuration/property/Properties.java:41-45 | The sort yields an ascending permutation of its input, duplicates kept. |
| ConfigurationProperties.SortedPermutationUnique | configuration/src/main/java/com/synopsys/integration/configuration/property/Properties.java:41-45 | Two ascending permutations of each other are equal, so any correct sort, Java's included, gives this result. |
| ConfigurationProperties.SortedPropertyKeysSortedPermutation | configuration/src/main/java/com/synopsys/integration/configuration/property/Properties.java:41-45 | The sorted keys are ascending, have the same multiset as the keys, and are as many as the properties. |
| ConfigurationProperties.GetPropertiesReturnsConstructorList | configuration/src/main/java/com/synopsys/integration/configuration/property/Properties.java:31-49 | `getProperties` returns the list given to the constructor. |
| DetectConfig.Property.constructor | detect-configuration/src/main/java/com/synopsys/integration/detect/config/Property.kt:10-17 | A new property has the given key, null descriptive fields and the Simple category. |
| DetectConfig.Property.Info | detect-configuration/src/main/java/com/synopsys/integration/detect/config/Property.kt:19-23 | Sets exactly the name and origin and returns the same object. |
| DetectConfig.Property.Help | detect-configuration/src/main/java/com/synopsys/integration/detect/config/Property.kt:24-28 | Sets the short help and the long help, null when omitted, changes nothing else and returns the same object. |
| DetectConfig.Property.Groups | detect-configuration/src/main/java/com/synopsys/integration/detect/config/Property.kt:29-33 | Sets the primary group and the additional groups in argument order, changes nothing else and returns the same object. |
| DetectConfig.Property.SetCategory | detect-configuration/src/main/java/com/synopsys/integration/detect/config/Property.kt:34-37 | Replaces the category, changes nothing else and returns the same object. |
| DetectConfig.Describe | detect-configuration/src/main/java/com/synopsys/integration/detect/config/Property.kt:10-42 | After a full fluent chain every field holds what its setter was last given, the key is the constructor's, and the defaults hold: not case-sensitive, not only example values, an empty example list, no default description. |
| DetectConfig.ValueParseMessageParts | detect-configuration/src/main/java/com/synopsys/integration/detect/config/Property.kt:60 | The message is "Unable to parse raw value '", the raw value, "' and coerce it into type '", the type, "'. " and the additional message, each read back at its position. |
| DetectConfig.DefaultAdditionalMessage | detect-configuration/src/main/java/com/synopsys/integration/detect/config/Property.kt:60 | Without an additional message the text ends at "'. ". |
| DetectConfig.ValueParseMessageDistinguishesRawValues | detect-configuration/src/main/java/com/synopsys/integration/detect/config/Property.kt:60 | Different raw values of the same length give different messages. |

## Left out

- OperationFactory: only wires services and options whose classes are not part of this model. The operations it creates are entries of the run's operation log.
- Services and scanners: the network services (project service, BDIO upload, signature and binary scanners, phone-home, report service, policy post actions) are inputs. Their outcomes are fields of the run context or abstract functions; their effects are entries of a call or event log.
- Waiting: waiting on code locations, the post actions' own behaviour and timeouts, concurrency and cancellation live in classes that are not part of this model.
- JSON output: the Gson serialisation of the results, the deletion of an existing result file (whose failure only logs a warning) and the file writing are reduced to the file name and the abstract outcome `writeSucceeds`.
- Logging text: lines are modelled only where they carry the violation decision (policy rule, error and warning lines); separator and progress messages are left out.
- RapidMode.RapidModePostActions.Perform: the escape function `replaceWithUnderscore` is abstract; only the layout of the file name around it is proved.
- Set iteration order: the vulnerability and license violation views are Java `Set`s whose iteration order is unspecified. The model takes the order iteration happens to use; only the log order depends on it, never a decision.
- Character classes: `IsWhitespace` follows `Character.isWhitespace` on single characters; surrogate pairs and code points beyond the Basic Multilingual Plane are not modelled. Strings are sequences of characters.
- ConfigurationProperties.LessOrEqual: compares strings by code point, which differs from Java's `compareTo` (UTF-16 code units) for characters above U+FFFF.
- Unchecked exceptions: only the checked `DetectUserFriendlyException` and `IntegrationException` the run declares are modelled; a runtime exception anywhere is not.
- Which operations throw: the sources of most operations' `execute` are not part of this model, so whether one throws is left to the run context's `operationThrows`, for every operation other than Polaris and phone-home. An operation the factory fails to create (`createProjectCreationOperation` and `createSignatureScanOperation` declare that they may throw) counts as that operation throwing.
- The run result: `RunResult`, mutated by the tool operations, is reduced to the docker tar the Docker operation leaves in it and the tools whose project info the project decision sees.
- DetectableException: the bash resolver may throw it from `extractable`; the model gives the resolver's answer as a value and does not model the exception path.
- Requirements internals: the verdict an accumulator gives (for instance, which missing requirement it reports first) belongs to an unseen class and is the abstract `verdict`.
- Extractors: the Bitbake and Go vendor extractors, the file finder and the Maven executable finder are abstract functions.
- BazelFilter.Process: regular-expression matching is an abstract predicate. The test's `.*literal.*` pattern is given its meaning (containment) by `WrappedLiteralMatches`; that meaning is Java's only for lines holding no line terminator, which `.` does not match. Other step kinds, the EXTRACT step and composing steps into a pipeline are not part of the test and are not modelled. A step with no patterns keeps no line.
- Yarn-lock parser: the sources of the line analyzer, the element parser and the builder are not part of this model. The key/value grammar (Java `trim`, the key up to the first space or colon, one optional colon, then trim and unquote) is one grammar meeting everything the test asserts. Dependency lists and multi-line elements are not modelled.
- YarnLock.YarnLockKeyValuePairElementParser.ParseElement: returns the index of the next unconsumed line, one past the given index. The test does not check the returned index.
- Rebar.WithProject: `Optional.of` rejects null; a Dafny name-version cannot be null, so that failure path does not exist in the model.
- Property.kt subclasses: `TypedProperty`, `OptionalProperty`, `RequiredProperty` and `ValueParser` declare no behaviour. The exception's `innerException` is only passed to `Exception`. Group and category values are opaque names, with only `Simple` defined.
- FullScanPostProcessing.FullScanPostProcessingOperation.Execute: `detectTimeoutInSeconds` is a boxed `Long`; a null value would throw on unboxing and is not modelled.
- PeriodOfUse and DetectorsPage: a generated data holder and a documentation-build holder with no logic.
