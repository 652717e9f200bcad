/** Value types and collaborators shared by the run orchestration, the Black Duck
    operations and the rapid-mode post actions.

    Network services and the event system are reduced to what the core observes of
    them: the values they hand back (inputs of the model) and the calls or events the
    core sends to them (appended to a log object). */
module Common {

  /** Java's Optional, and a nullable reference where the source tests for null. */
  datatype Option<+T> = None | Some(value: T)

  /** How a call that declares checked exceptions (IntegrationException,
      DetectUserFriendlyException) ends: normally, with its value, or by throwing. */
  datatype Completion<+T> = Normal(value: T) | Abrupt

  /** A project name and version (NameVersion). */
  datatype NameVersion = NameVersion(name: string, version: string)

  /** The tools a DetectToolFilter can include or exclude. */
  datatype DetectTool = Polaris | Docker | Bazel | Detector | SignatureScan | BinaryScan | ImpactAnalysis

  /** The Black Duck project version view, reduced to its identity and the first
      "components" link, which is all the post processing reads of it. */
  datatype ProjectVersionView = ProjectVersionView(href: string, componentsLink: Option<string>)

  /** What creating or updating a project returns; the view itself may be null. */
  datatype ProjectVersionWrapper = ProjectVersionWrapper(projectName: string, projectVersionView: Option<ProjectVersionView>)

  /** The opaque handle of code locations created on Black Duck, which the run later waits on. */
  datatype CodeLocationCreationData = CodeLocationCreationData(batchId: nat)

  /** What the result calculation hands to the post actions for waiting. */
  datatype CodeLocationWaitData = CodeLocationWaitData(expectedCount: nat)

  /** The options of the Black Duck post actions (policy checks, reports), left opaque. */
  datatype BlackDuckPostOptions = BlackDuckPostOptions(waitForResults: bool)

  datatype ExitCodeType = FailurePolicyViolation | FailureUnknownError

  datatype ExitCodeRequest = ExitCodeRequest(exitCodeType: ExitCodeType, reason: string)

  datatype StatusType = StatusSuccess | StatusFailure

  datatype Status = Status(descriptionKey: string, statusType: StatusType)

  /** DetectIssueType; only the signature scanner kind is raised by the modelled code. */
  datatype DetectIssueType = SignatureScannerIssue

  datatype DetectIssue = DetectIssue(issueType: DetectIssueType, messages: seq<string>)

  /** DetectResult; only the BOM result is produced by the modelled code. */
  datatype DetectResult = BlackDuckBomDetectResult(componentsLink: string)

  /** An event together with its payload, as passed to EventSystem.publishEvent. */
  datatype Event =
    | ExitCode(request: ExitCodeRequest)
    | StatusSummary(status: Status)
    | Issue(issue: DetectIssue)
    | ResultProduced(result: DetectResult)
    | ProjectNameVersionChosen(nameVersion: NameVersion)

  /** The process-wide event system, as an append-only log of published events. */
  class EventSystem {
    var events: seq<Event>

    constructor ()
      ensures events == []
    {
      events := [];
    }

    method PublishEvent(event: Event)
      modifies this
      ensures events == old(events) + [event]
    {
      events := events + [event];
    }
  }

  /** A call the core makes on a Black Duck service. */
  datatype ServiceCall =
    | CreateReportService(timeoutInMilliseconds: int)
    | PerformPostActions(options: BlackDuckPostOptions, waitData: CodeLocationWaitData,
                         projectVersion: Option<ProjectVersionWrapper>, nameVersion: NameVersion,
                         timeoutInSeconds: int)
    | CreateOrUpdateProject(nameVersion: NameVersion)
    | UnmapCodeLocations(projectVersionView: Option<ProjectVersionView>)

  /** The services created from a BlackDuckServicesFactory, as a log of the calls made
      on them; `projectFor` is what the server answers to a create-or-update request,
      and `throwsOn` says which calls end in an exception. A call that throws is still
      logged: it was made. */
  class BlackDuckServices {
    const projectFor: NameVersion -> Option<ProjectVersionWrapper>
    const throwsOn: ServiceCall -> bool
    var calls: seq<ServiceCall>

    constructor (projectFor: NameVersion -> Option<ProjectVersionWrapper>, throwsOn: ServiceCall -> bool)
      ensures this.projectFor == projectFor && this.throwsOn == throwsOn && calls == []
    {
      this.projectFor := projectFor;
      this.throwsOn := throwsOn;
      calls := [];
    }

    method CreateReportService(timeoutInMilliseconds: int) returns (threw: bool)
      modifies this
      ensures calls == old(calls) + [ServiceCall.CreateReportService(timeoutInMilliseconds)]
      ensures threw == throwsOn(ServiceCall.CreateReportService(timeoutInMilliseconds))
    {
      calls := calls + [ServiceCall.CreateReportService(timeoutInMilliseconds)];
      threw := throwsOn(ServiceCall.CreateReportService(timeoutInMilliseconds));
    }

    method PerformPostActions(options: BlackDuckPostOptions, waitData: CodeLocationWaitData,
                              projectVersion: Option<ProjectVersionWrapper>, nameVersion: NameVersion,
                              timeoutInSeconds: int) returns (threw: bool)
      modifies this
      ensures calls == old(calls) + [ServiceCall.PerformPostActions(options, waitData, projectVersion, nameVersion, timeoutInSeconds)]
      ensures threw == throwsOn(ServiceCall.PerformPostActions(options, waitData, projectVersion, nameVersion, timeoutInSeconds))
    {
      var call := ServiceCall.PerformPostActions(options, waitData, projectVersion, nameVersion, timeoutInSeconds);
      calls := calls + [call];
      threw := throwsOn(call);
    }

    method CreateOrUpdateProject(nameVersion: NameVersion) returns (wrapper: Completion<Option<ProjectVersionWrapper>>)
      modifies this
      ensures calls == old(calls) + [ServiceCall.CreateOrUpdateProject(nameVersion)]
      ensures wrapper.Abrupt? <==> throwsOn(ServiceCall.CreateOrUpdateProject(nameVersion))
      ensures wrapper.Normal? ==> wrapper.value == projectFor(nameVersion)
    {
      calls := calls + [ServiceCall.CreateOrUpdateProject(nameVersion)];
      if throwsOn(ServiceCall.CreateOrUpdateProject(nameVersion)) {
        wrapper := Abrupt;
      } else {
        wrapper := Normal(projectFor(nameVersion));
      }
    }

    method UnmapCodeLocations(view: Option<ProjectVersionView>) returns (threw: bool)
      modifies this
      ensures calls == old(calls) + [ServiceCall.UnmapCodeLocations(view)]
      ensures threw == throwsOn(ServiceCall.UnmapCodeLocations(view))
    {
      calls := calls + [ServiceCall.UnmapCodeLocations(view)];
      threw := throwsOn(ServiceCall.UnmapCodeLocations(view));
    }
  }
}
