/** The last step of a full (non-rapid) Black Duck scan (FullScanPostProcessingOperation):
    the post actions run once, with a report service whose timeout is the run's
    timeout in milliseconds, and a BOM result pointing at the project version's
    components is published when something was sent to Black Duck. Creating the
    report service or performing the post actions may throw, which ends the
    operation before anything is published. */
module FullScanPostProcessing {
  import opened Common
  import opened Sequences

  const LongModulus: int := 0x1_0000_0000_0000_0000
  const MinLong: int := -0x8000_0000_0000_0000
  const MaxLong: int := 0x7FFF_FFFF_FFFF_FFFF

  predicate IsLong(x: int) {
    MinLong <= x <= MaxLong
  }

  /** Java `long` arithmetic: the two's-complement value congruent to `x`. */
  function WrapLong(x: int): (r: int)
    ensures IsLong(r)
    ensures (r - x) % LongModulus == 0
    ensures IsLong(x) ==> r == x
  {
    var m := (x - MinLong) % LongModulus;
    assert (m + MinLong - x) == ((x - MinLong) % LongModulus) - (x - MinLong);
    m + MinLong
  }

  /** The report service timeout: `detectTimeoutInSeconds * 1000` as Java multiplies longs. */
  function ReportTimeoutInMilliseconds(detectTimeoutInSeconds: int): int {
    WrapLong(detectTimeoutInSeconds * 1000)
  }

  /** For every timeout that does not overflow, the report timeout is the same duration
      in milliseconds; beyond that the product wraps around. */
  lemma ReportTimeoutIsMilliseconds(detectTimeoutInSeconds: int)
    requires IsLong(detectTimeoutInSeconds * 1000)
    ensures ReportTimeoutInMilliseconds(detectTimeoutInSeconds) == detectTimeoutInSeconds * 1000
    ensures ReportTimeoutInMilliseconds(detectTimeoutInSeconds) / 1000 == detectTimeoutInSeconds
  {
  }

  /** The smallest timeout in seconds whose product with 1000 overflows wraps around to a
      negative report timeout. */
  lemma ReportTimeoutWraps()
    ensures ReportTimeoutInMilliseconds(MaxLong / 1000 + 1) < 0
  {
  }

  /** The BDIO result, reduced to the targets the BDIO was uploaded to. */
  datatype BdioResult = BdioResult(uploadTargets: seq<string>)

  /** The code-location results, reduced to what the post actions wait on. */
  datatype CodeLocationResults = CodeLocationResults(codeLocationWaitData: CodeLocationWaitData)

  datatype FullScanPostProcessingInput = FullScanPostProcessingInput(
    projectNameVersion: NameVersion,
    bdioResult: BdioResult,
    codeLocationResults: CodeLocationResults,
    projectVersionWrapper: Option<ProjectVersionWrapper>)

  /** The components link of the project version: absent when the wrapper is null, when it
      holds no version view, or when the view has no components link. */
  function ComponentsLink(wrapper: Option<ProjectVersionWrapper>): (link: Option<string>)
    ensures link.Some? <==>
      wrapper.Some? && wrapper.value.projectVersionView.Some? && wrapper.value.projectVersionView.value.componentsLink.Some?
    ensures link.Some? ==> link == wrapper.value.projectVersionView.value.componentsLink
  {
    match wrapper
    case None => None
    case Some(w) =>
      match w.projectVersionView
      case None => None
      case Some(view) => view.componentsLink
  }

  /** Something was sent to Black Duck: a BDIO upload target, or the signature scanner. */
  predicate SentToBlackDuck(includedTools: set<DetectTool>, input: FullScanPostProcessingInput) {
    input.bdioResult.uploadTargets != [] || SignatureScan in includedTools
  }

  /** The events `execute` publishes. */
  function BomEvents(includedTools: set<DetectTool>, input: FullScanPostProcessingInput): seq<Event> {
    if SentToBlackDuck(includedTools, input) then
      match ComponentsLink(input.projectVersionWrapper)
      case Some(link) => [ResultProduced(BlackDuckBomDetectResult(link))]
      case None => []
    else []
  }

  /** At most one event is published; there is one iff something was sent to Black Duck and
      the version has a components link, and it is the BOM result carrying that link. */
  lemma BomResultPublishedIff(includedTools: set<DetectTool>, input: FullScanPostProcessingInput)
    ensures |BomEvents(includedTools, input)| <= 1
    ensures |BomEvents(includedTools, input)| == 1 <==>
      SentToBlackDuck(includedTools, input) && ComponentsLink(input.projectVersionWrapper).Some?
    ensures |BomEvents(includedTools, input)| == 1 ==>
      BomEvents(includedTools, input)[0] ==
        ResultProduced(BlackDuckBomDetectResult(ComponentsLink(input.projectVersionWrapper).value))
  {
  }

  /** A null wrapper, or a view without a components link, publishes nothing. */
  lemma NoLinkNoResult(includedTools: set<DetectTool>, input: FullScanPostProcessingInput)
    requires input.projectVersionWrapper == None
          || (input.projectVersionWrapper.value.projectVersionView.Some?
              && input.projectVersionWrapper.value.projectVersionView.value.componentsLink == None)
    ensures BomEvents(includedTools, input) == []
  {
  }

  /** The service calls `execute` makes: the report service, then the post actions. */
  function PostProcessingCalls(options: BlackDuckPostOptions, detectTimeoutInSeconds: int,
                               input: FullScanPostProcessingInput): seq<ServiceCall> {
    [ServiceCall.CreateReportService(ReportTimeoutInMilliseconds(detectTimeoutInSeconds)),
     ServiceCall.PerformPostActions(options, input.codeLocationResults.codeLocationWaitData,
                                    input.projectVersionWrapper, input.projectNameVersion, detectTimeoutInSeconds)]
  }

  /** Exactly one post-actions call, carrying the wait data, the wrapper, the project and the
      timeout of the input and the operation. */
  lemma PostActionsPerformedOnce(options: BlackDuckPostOptions, detectTimeoutInSeconds: int,
                                 input: FullScanPostProcessingInput)
    ensures var calls := PostProcessingCalls(options, detectTimeoutInSeconds, input);
      && (forall i :: 0 <= i < |calls| && calls[i].PerformPostActions? ==> i == |calls| - 1)
      && calls[|calls| - 1] == ServiceCall.PerformPostActions(options, input.codeLocationResults.codeLocationWaitData,
                                                              input.projectVersionWrapper, input.projectNameVersion,
                                                              detectTimeoutInSeconds)
  {
  }

  /** A throwing report service means the post actions are never performed; otherwise
      both calls are made, and the operation throws iff one of them does. */
  lemma PostProcessingStopsAtThrow(options: BlackDuckPostOptions, detectTimeoutInSeconds: int,
                                   input: FullScanPostProcessingInput, throwsOn: ServiceCall -> bool)
    ensures var calls := PostProcessingCalls(options, detectTimeoutInSeconds, input);
      && (throwsOn(calls[0]) ==> UpToFirst(calls, throwsOn) == [calls[0]])
      && (!throwsOn(calls[0]) ==> UpToFirst(calls, throwsOn) == calls)
      && (AnyHolds(calls, throwsOn) <==> throwsOn(calls[0]) || throwsOn(calls[1]))
  {
    var calls := PostProcessingCalls(options, detectTimeoutInSeconds, input);
    UpToFirstSingle(calls[0], throwsOn);
    UpToFirstSingle(calls[1], throwsOn);
    assert calls == [calls[0]] + [calls[1]];
    UpToFirstStep([], [calls[0]], [calls[1]], throwsOn);
  }

  class FullScanPostProcessingOperation {
    /** The tool filter, as the set of tools it includes. */
    const includedTools: set<DetectTool>
    const blackDuckPostOptions: BlackDuckPostOptions
    const eventSystem: EventSystem
    const detectTimeoutInSeconds: int

    constructor (includedTools: set<DetectTool>, blackDuckPostOptions: BlackDuckPostOptions,
                 eventSystem: EventSystem, detectTimeoutInSeconds: int)
      ensures this.includedTools == includedTools && this.blackDuckPostOptions == blackDuckPostOptions
      ensures this.eventSystem == eventSystem && this.detectTimeoutInSeconds == detectTimeoutInSeconds
    {
      this.includedTools := includedTools;
      this.blackDuckPostOptions := blackDuckPostOptions;
      this.eventSystem := eventSystem;
      this.detectTimeoutInSeconds := detectTimeoutInSeconds;
    }

    /** Makes the planned service calls up to the first that throws, and publishes the
        BOM events only when neither throws. */
    method Execute(blackDuckServices: BlackDuckServices, input: FullScanPostProcessingInput) returns (threw: bool)
      modifies blackDuckServices, eventSystem
      ensures var planned := PostProcessingCalls(blackDuckPostOptions, detectTimeoutInSeconds, input);
        && blackDuckServices.calls == old(blackDuckServices.calls) + UpToFirst(planned, blackDuckServices.throwsOn)
        && (threw <==> AnyHolds(planned, blackDuckServices.throwsOn))
        && eventSystem.events == old(eventSystem.events)
             + (if AnyHolds(planned, blackDuckServices.throwsOn) then [] else BomEvents(includedTools, input))
    {
      PostProcessingStopsAtThrow(blackDuckPostOptions, detectTimeoutInSeconds, input, blackDuckServices.throwsOn);
      threw := blackDuckServices.CreateReportService(WrapLong(detectTimeoutInSeconds * 1000));
      if threw {
        return;
      }
      threw := blackDuckServices.PerformPostActions(blackDuckPostOptions, input.codeLocationResults.codeLocationWaitData,
                                                    input.projectVersionWrapper, input.projectNameVersion, detectTimeoutInSeconds);
      if threw {
        return;
      }
      if input.bdioResult.uploadTargets != [] || SignatureScan in includedTools {
        var componentsLink := ComponentsLink(input.projectVersionWrapper);
        if componentsLink.Some? {
          eventSystem.PublishEvent(ResultProduced(BlackDuckBomDetectResult(componentsLink.value)));
        }
      }
    }
  }
}
