/** The signature scan step of a Black Duck run (SignatureScanOperation): the scanner
    is given a connection to Black Duck only when the run is online, its code-location
    data is handed on only after a successful scan, and a failed scan is reported as a
    failure status plus an issue carrying the scanner's result. A scanner that throws
    ends the operation with nothing reported. */
module SignatureScanning {
  import opened Common

  /** The connection settings of the Black Duck server, left opaque. */
  datatype BlackDuckServerConfig = BlackDuckServerConfig(url: string)

  /** The service through which scan results become code locations, left opaque. */
  datatype CodeLocationCreationService = CodeLocationCreationService(id: nat)

  /** The services factory, reduced to the creation service it builds. */
  datatype BlackDuckServicesFactory = BlackDuckServicesFactory(codeLocationCreationService: CodeLocationCreationService)

  /** BlackDuckRunData: whether the run talks to a server, and how. */
  datatype BlackDuckRunData = BlackDuckRunData(online: bool, servicesFactory: BlackDuckServicesFactory,
                                               serverConfig: BlackDuckServerConfig)

  /** The scanner's overall result; `ResultText` is the Java enum's name. */
  datatype ScanResult = Success | Failure

  function ResultText(r: ScanResult): (text: string)
    ensures text == "SUCCESS" <==> r == Success
  {
    match r
    case Success => "SUCCESS"
    case Failure => "FAILURE"
  }

  datatype SignatureScannerToolResult = SignatureScannerToolResult(result: ScanResult, creationData: Option<CodeLocationCreationData>)

  /** What `execute` is given: the project to scan under, and a docker image tarball if any. */
  datatype SignatureScanInput = SignatureScanInput(projectNameVersion: NameVersion, dockerTar: Option<string>)

  /** The arguments of one `runScanTool` call; a null service or config is `None`. */
  datatype ScanToolInvocation = ScanToolInvocation(creationService: Option<CodeLocationCreationService>,
                                                   serverConfig: Option<BlackDuckServerConfig>,
                                                   projectNameVersion: NameVersion, dockerTar: Option<string>)

  /** The signature scanner tool: `outcome` is what a scan with given arguments reports,
      `throwsOn` which scans end in an exception instead, and `invocations` records the
      scans started. */
  class SignatureScannerTool {
    const outcome: ScanToolInvocation -> SignatureScannerToolResult
    const throwsOn: ScanToolInvocation -> bool
    var invocations: seq<ScanToolInvocation>

    constructor (outcome: ScanToolInvocation -> SignatureScannerToolResult, throwsOn: ScanToolInvocation -> bool)
      ensures this.outcome == outcome && this.throwsOn == throwsOn && invocations == []
    {
      this.outcome := outcome;
      this.throwsOn := throwsOn;
      invocations := [];
    }

    method RunScanTool(invocation: ScanToolInvocation) returns (r: Completion<SignatureScannerToolResult>)
      modifies this
      ensures invocations == old(invocations) + [invocation]
      ensures r.Abrupt? <==> throwsOn(invocation)
      ensures r.Normal? ==> r.value == outcome(invocation)
    {
      invocations := invocations + [invocation];
      if throwsOn(invocation) {
        r := Abrupt;
      } else {
        r := Normal(outcome(invocation));
      }
    }
  }

  /** The run data counts as online only when it is present and says so. */
  predicate IsOnline(runData: Option<BlackDuckRunData>) {
    runData.Some? && runData.value.online
  }

  /** The scanner call `execute` makes for a given run data and input. */
  function ScanInvocation(runData: Option<BlackDuckRunData>, input: SignatureScanInput): (invocation: ScanToolInvocation)
    ensures invocation.projectNameVersion == input.projectNameVersion
    ensures invocation.dockerTar == input.dockerTar
  {
    if IsOnline(runData) then
      ScanToolInvocation(Some(runData.value.servicesFactory.codeLocationCreationService),
                         Some(runData.value.serverConfig), input.projectNameVersion, input.dockerTar)
    else
      ScanToolInvocation(None, None, input.projectNameVersion, input.dockerTar)
  }

  /** What `execute` returns for a scanner result. */
  function ScanOutcome(toolResult: SignatureScannerToolResult): Option<CodeLocationCreationData> {
    if toolResult.result == Success && toolResult.creationData.Some? then toolResult.creationData else None
  }

  /** What `execute` publishes for a scanner result. */
  function FailureEvents(toolResult: SignatureScannerToolResult): seq<Event> {
    if toolResult.result != Success then
      [StatusSummary(Status("SIGNATURE_SCAN", StatusFailure)),
       Issue(DetectIssue(SignatureScannerIssue, [ResultText(toolResult.result)]))]
    else []
  }

  /** Missing or offline run data gives the scanner neither a creation service nor a
      server config; online run data gives it both, taken from the run data. */
  lemma ScanConnectionIffOnline(runData: Option<BlackDuckRunData>, input: SignatureScanInput)
    ensures !IsOnline(runData) <==> ScanInvocation(runData, input).creationService == None
    ensures !IsOnline(runData) <==> ScanInvocation(runData, input).serverConfig == None
    ensures IsOnline(runData) ==>
      && ScanInvocation(runData, input).creationService == Some(runData.value.servicesFactory.codeLocationCreationService)
      && ScanInvocation(runData, input).serverConfig == Some(runData.value.serverConfig)
  {
  }

  /** The creation data is handed on exactly when the scan succeeded and produced some,
      and then it is the scanner's own. */
  lemma CreationDataReturnedIff(toolResult: SignatureScannerToolResult)
    ensures ScanOutcome(toolResult).Some? <==> toolResult.result == Success && toolResult.creationData.Some?
    ensures ScanOutcome(toolResult).Some? ==> ScanOutcome(toolResult) == toolResult.creationData
  {
  }

  /** A failed scan returns nothing and publishes exactly a SIGNATURE_SCAN failure status
      followed by one issue holding the result's text; a successful scan publishes nothing. */
  lemma FailureReported(toolResult: SignatureScannerToolResult)
    ensures toolResult.result != Success ==> ScanOutcome(toolResult) == None
    ensures toolResult.result != Success ==>
      && |FailureEvents(toolResult)| == 2
      && FailureEvents(toolResult)[0] == StatusSummary(Status("SIGNATURE_SCAN", StatusFailure))
      && FailureEvents(toolResult)[1].Issue?
      && FailureEvents(toolResult)[1].issue.issueType == SignatureScannerIssue
      && FailureEvents(toolResult)[1].issue.messages == ["FAILURE"]
    ensures toolResult.result == Success ==> FailureEvents(toolResult) == []
  {
  }

  /** A successful scan without creation data returns nothing and publishes nothing. */
  lemma SuccessWithoutDataIsSilent(toolResult: SignatureScannerToolResult)
    requires toolResult.result == Success && toolResult.creationData == None
    ensures ScanOutcome(toolResult) == None && FailureEvents(toolResult) == []
  {
  }

  class SignatureScanOperation {
    const blackDuckRunData: Option<BlackDuckRunData>
    const signatureScannerTool: SignatureScannerTool
    const eventSystem: EventSystem

    constructor (blackDuckRunData: Option<BlackDuckRunData>, signatureScannerTool: SignatureScannerTool,
                 eventSystem: EventSystem)
      ensures this.blackDuckRunData == blackDuckRunData
      ensures this.signatureScannerTool == signatureScannerTool && this.eventSystem == eventSystem
    {
      this.blackDuckRunData := blackDuckRunData;
      this.signatureScannerTool := signatureScannerTool;
      this.eventSystem := eventSystem;
    }

    /** Runs the scanner once and, unless it threw, reports its result. */
    method Execute(input: SignatureScanInput) returns (result: Completion<Option<CodeLocationCreationData>>)
      modifies signatureScannerTool, eventSystem
      ensures signatureScannerTool.invocations == old(signatureScannerTool.invocations) + [ScanInvocation(blackDuckRunData, input)]
      ensures result.Abrupt? <==> signatureScannerTool.throwsOn(ScanInvocation(blackDuckRunData, input))
      ensures result.Normal? ==>
        result.value == ScanOutcome(signatureScannerTool.outcome(ScanInvocation(blackDuckRunData, input)))
      ensures eventSystem.events == old(eventSystem.events)
        + (if result.Abrupt? then [] else FailureEvents(signatureScannerTool.outcome(ScanInvocation(blackDuckRunData, input))))
    {
      var serverConfig: Option<BlackDuckServerConfig> := None;
      var creationService: Option<CodeLocationCreationService> := None;
      if blackDuckRunData.Some? && blackDuckRunData.value.online {
        var servicesFactory := blackDuckRunData.value.servicesFactory;
        creationService := Some(servicesFactory.codeLocationCreationService);
        serverConfig := Some(blackDuckRunData.value.serverConfig);
      }
      var toolResult := signatureScannerTool.RunScanTool(
        ScanToolInvocation(creationService, serverConfig, input.projectNameVersion, input.dockerTar));
      if toolResult.Abrupt? {
        return Abrupt;
      }
      var scanned := None;
      if toolResult.value.result == Success && toolResult.value.creationData.Some? {
        scanned := toolResult.value.creationData;
      } else if toolResult.value.result != Success {
        eventSystem.PublishEvent(StatusSummary(Status("SIGNATURE_SCAN", StatusFailure)));
        eventSystem.PublishEvent(Issue(DetectIssue(SignatureScannerIssue, [ResultText(toolResult.value.result)])));
      }
      result := Normal(scanned);
    }
  }
}
