/** The detection run (RunManager): which products and tools run, in which order,
    with which inputs, and what goes into the code-location accumulator.

    Each operation the run creates through its operation factory is reduced to an
    entry of an operation log; what an operation hands back (whether a tool failed,
    the project it created, the code locations it produced) and whether it throws
    are part of the run context, an input of the model. Nothing in the run catches:
    the first operation that throws ends the run. */
module RunManagement {
  import opened Common
  import opened UniversalTools
  import opened Sequences

  /** The inputs of a run: the product and run options, the tool filter, and the
      outcomes of the operations the run may execute. */
  datatype RunContext = RunContext(
    shouldUsePolarisProduct: bool,
    shouldUseBlackDuckProduct: bool,
    /** RunOptions.shouldPerformRapidModeScan. */
    rapidMode: bool,
    /** The tools DetectToolFilter.shouldInclude accepts. */
    includedTools: set<DetectTool>,
    /** BlackDuckRunData.isOnline. */
    online: bool,
    hasPhoneHomeManager: bool,
    /** What the Docker, Bazel and detector operations return: true on failure. */
    toolFails: DetectTool -> bool,
    /** The docker tar the Docker operation leaves in the run result. */
    dockerTar: Option<string>,
    /** The project decision, from the project info of the tools that ran. */
    decideProject: seq<DetectTool> -> NameVersion,
    /** What the project creation operation returns. */
    createdProject: Option<ProjectVersionWrapper>,
    uploadResult: Option<CodeLocationCreationData>,
    signatureScanResult: Option<CodeLocationCreationData>,
    binaryScanResult: Option<CodeLocationCreationData>,
    /** ImpactAnalysisOperation.shouldImpactAnalysisToolRun. */
    impactAnalysisEnabled: bool,
    impactAnalysisCodeLocationNames: seq<string>,
    /** Which operations end by throwing when executed. */
    operationThrows: Operation -> bool)

  /** An operation the run executes, with the inputs it is given. */
  datatype Operation =
    | PolarisOperation
    | ToolOperation(tool: DetectTool)
    | ProjectDecisionOperation(toolsRun: seq<DetectTool>)
    | AggregateOptionsOperation(anyFailed: bool)
    | BdioFileGenerationOperation(nameVersion: NameVersion)
    | RapidScanOperation(nameVersion: NameVersion)
    | StartPhoneHome
    | ProjectCreationOperation(nameVersion: NameVersion)
    | BdioUploadOperation
    | SignatureScanOperation(nameVersion: NameVersion, dockerTar: Option<string>)
    | BinaryScanOperation(nameVersion: NameVersion)
    | ImpactAnalysisOperation(nameVersion: NameVersion, projectVersion: Option<ProjectVersionWrapper>)
    | CodeLocationResultCalculationOperation(waitable: seq<CodeLocationCreationData>, nonWaitable: seq<string>)
    | FullScanPostProcessingOperation(nameVersion: NameVersion, projectVersion: Option<ProjectVersionWrapper>)

  class OperationLog {
    var operations: seq<Operation>

    constructor ()
      ensures operations == []
    {
      operations := [];
    }

    method Record(operation: Operation)
      modifies this
      ensures operations == old(operations) + [operation]
    {
      operations := operations + [operation];
    }
  }

  /** The code locations the run will wait on, and those it will not. */
  class CodeLocationAccumulator {
    var waitable: seq<CodeLocationCreationData>
    var nonWaitable: seq<string>

    constructor ()
      ensures waitable == [] && nonWaitable == []
    {
      waitable := [];
      nonWaitable := [];
    }

    method AddWaitableCodeLocation(data: CodeLocationCreationData)
      modifies this
      ensures waitable == old(waitable) + [data] && nonWaitable == old(nonWaitable)
    {
      waitable := waitable + [data];
    }

    method AddNonWaitableCodeLocation(names: seq<string>)
      modifies this
      ensures nonWaitable == old(nonWaitable) + names && waitable == old(waitable)
    {
      nonWaitable := nonWaitable + names;
    }
  }

  function OptionToSeq<T>(o: Option<T>): seq<T> {
    if o.Some? then [o.value] else []
  }

  // ---------------------------------------------------------------------------
  // What a run does, as functions of its context

  function PolarisOperations(ctx: RunContext): seq<Operation> {
    if ctx.shouldUsePolarisProduct && Polaris in ctx.includedTools && !ctx.rapidMode then [PolarisOperation] else []
  }

  /** The universal tools whose gate is open, in the order the run considers them. */
  function GatedTools(ctx: RunContext): seq<DetectTool> {
    (if !ctx.rapidMode && Docker in ctx.includedTools then [Docker] else [])
    + (if !ctx.rapidMode && Bazel in ctx.includedTools then [Bazel] else [])
    + (if Detector in ctx.includedTools then [Detector] else [])
  }

  /** The tools executed out of `gated`: every one up to and including the first
      that fails, since `anythingFailed || execute(...)` skips the rest. */
  function InvokedTools(toolFails: DetectTool -> bool, gated: seq<DetectTool>): seq<DetectTool> {
    if gated == [] then []
    else [gated[0]] + (if toolFails(gated[0]) then [] else InvokedTools(toolFails, gated[1..]))
  }

  function ToolsRun(ctx: RunContext): seq<DetectTool> {
    InvokedTools(ctx.toolFails, GatedTools(ctx))
  }

  predicate AnyFails(toolFails: DetectTool -> bool, tools: seq<DetectTool>) {
    exists k :: 0 <= k < |tools| && toolFails(tools[k])
  }

  function DecidedNameVersion(ctx: RunContext): NameVersion {
    ctx.decideProject(ToolsRun(ctx))
  }

  /** What runUniversalProjectTools returns. */
  function UniversalResult(ctx: RunContext): UniversalToolsResult {
    if AnyFails(ctx.toolFails, ToolsRun(ctx)) then Failure(DecidedNameVersion(ctx)) else Success(DecidedNameVersion(ctx))
  }

  function ToolOperations(tools: seq<DetectTool>): seq<Operation> {
    seq(|tools|, k requires 0 <= k < |tools| => ToolOperation(tools[k]))
  }

  function UniversalOperations(ctx: RunContext): seq<Operation> {
    ToolOperations(ToolsRun(ctx)) + [ProjectDecisionOperation(ToolsRun(ctx))]
  }

  /** The project version the Black Duck operations see: the created project when
      online, null otherwise. */
  function ProjectVersionFor(ctx: RunContext): Option<ProjectVersionWrapper> {
    if ctx.online then ctx.createdProject else None
  }

  predicate ImpactAnalysisRuns(ctx: RunContext) {
    ImpactAnalysis in ctx.includedTools && ctx.impactAnalysisEnabled
  }

  function DockerTarFor(ctx: RunContext): Option<string> {
    if Docker in ToolsRun(ctx) then ctx.dockerTar else None
  }

  function Waitable(ctx: RunContext): seq<CodeLocationCreationData> {
    OptionToSeq(ctx.uploadResult)
    + (if SignatureScan in ctx.includedTools then OptionToSeq(ctx.signatureScanResult) else [])
    + (if BinaryScan in ctx.includedTools && ctx.online then OptionToSeq(ctx.binaryScanResult) else [])
  }

  function NonWaitable(ctx: RunContext): seq<string> {
    if ImpactAnalysisRuns(ctx) then ctx.impactAnalysisCodeLocationNames else []
  }

  function PhoneHomeOperations(ctx: RunContext): seq<Operation> {
    if ctx.hasPhoneHomeManager then [StartPhoneHome] else []
  }

  function ProjectOperations(ctx: RunContext, nameVersion: NameVersion): seq<Operation> {
    if ctx.online then PhoneHomeOperations(ctx) + [ProjectCreationOperation(nameVersion)] else []
  }

  function SignatureScanOperations(ctx: RunContext, nameVersion: NameVersion, dockerTar: Option<string>): seq<Operation> {
    if SignatureScan in ctx.includedTools then [SignatureScanOperation(nameVersion, dockerTar)] else []
  }

  function BinaryScanOperations(ctx: RunContext, nameVersion: NameVersion): seq<Operation> {
    if BinaryScan in ctx.includedTools && ctx.online then [BinaryScanOperation(nameVersion)] else []
  }

  function ImpactAnalysisOperations(ctx: RunContext, nameVersion: NameVersion,
                                    projectVersion: Option<ProjectVersionWrapper>): seq<Operation> {
    if ImpactAnalysisRuns(ctx) then [ImpactAnalysisOperation(nameVersion, projectVersion)] else []
  }

  function ScanOperations(ctx: RunContext, nameVersion: NameVersion): seq<Operation> {
    [BdioUploadOperation]
    + (SignatureScanOperations(ctx, nameVersion, DockerTarFor(ctx))
       + (BinaryScanOperations(ctx, nameVersion) + ImpactAnalysisOperations(ctx, nameVersion, ProjectVersionFor(ctx))))
  }

  function PostProcessingOperations(ctx: RunContext, nameVersion: NameVersion,
                                    projectVersion: Option<ProjectVersionWrapper>): seq<Operation> {
    if ctx.online then [FullScanPostProcessingOperation(nameVersion, projectVersion)] else []
  }

  function PostScanOperations(ctx: RunContext, nameVersion: NameVersion): seq<Operation> {
    [CodeLocationResultCalculationOperation(Waitable(ctx), NonWaitable(ctx))]
    + PostProcessingOperations(ctx, nameVersion, ProjectVersionFor(ctx))
  }

  function FullScanOperations(ctx: RunContext, nameVersion: NameVersion): seq<Operation> {
    ProjectOperations(ctx, nameVersion) + (ScanOperations(ctx, nameVersion) + PostScanOperations(ctx, nameVersion))
  }

  function BlackDuckOperations(ctx: RunContext, nameVersion: NameVersion): seq<Operation> {
    [BdioFileGenerationOperation(nameVersion)]
    + (if ctx.rapidMode && ctx.online then [RapidScanOperation(nameVersion)] else FullScanOperations(ctx, nameVersion))
  }

  /** What the Black Duck product adds after the universal tools. */
  function BlackDuckProductOperations(ctx: RunContext): seq<Operation> {
    if ctx.shouldUseBlackDuckProduct
    then [AggregateOptionsOperation(UniversalResult(ctx).AnyFailed())] + BlackDuckOperations(ctx, DecidedNameVersion(ctx))
    else []
  }

  /** Every operation a run executes when nothing throws, in order. */
  function PlannedOperations(ctx: RunContext): seq<Operation> {
    PolarisOperations(ctx) + (UniversalOperations(ctx) + BlackDuckProductOperations(ctx))
  }

  // ---------------------------------------------------------------------------
  // Properties of a run

  /** The tools executed are a prefix of the gated tools; every executed tool but
      the last succeeded, and when some gated tool was skipped the last executed
      one failed. */
  lemma {:induction false} InvokedToolsArePrefix(toolFails: DetectTool -> bool, gated: seq<DetectTool>)
    ensures var invoked := InvokedTools(toolFails, gated);
      && |invoked| <= |gated| && invoked == gated[..|invoked|]
      && (forall k :: 0 <= k < |invoked| - 1 ==> !toolFails(invoked[k]))
      && (|invoked| < |gated| ==> |invoked| > 0 && toolFails(invoked[|invoked| - 1]))
  {
    if gated != [] && !toolFails(gated[0]) {
      var rest := InvokedTools(toolFails, gated[1..]);
      InvokedToolsArePrefix(toolFails, gated[1..]);
      assert InvokedTools(toolFails, gated) == [gated[0]] + rest;
      assert gated[..1 + |rest|] == [gated[0]] + gated[1..][..|rest|];
    }
  }

  /** Some executed tool failed iff some gated tool would fail: the skipped tools
      can only come after a failure. */
  lemma {:induction false} InvokedToolsFailIff(toolFails: DetectTool -> bool, gated: seq<DetectTool>)
    ensures AnyFails(toolFails, InvokedTools(toolFails, gated)) <==> AnyFails(toolFails, gated)
  {
    if gated != [] {
      var invoked := InvokedTools(toolFails, gated);
      if toolFails(gated[0]) {
        assert invoked[0] == gated[0];
      } else {
        var rest := InvokedTools(toolFails, gated[1..]);
        InvokedToolsFailIff(toolFails, gated[1..]);
        assert invoked == [gated[0]] + rest;
        if AnyFails(toolFails, gated) {
          var k :| 0 <= k < |gated| && toolFails(gated[k]);
          assert gated[1..][k - 1] == gated[k];
          var j :| 0 <= j < |rest| && toolFails(rest[j]);
          assert invoked[j + 1] == rest[j];
        }
        if AnyFails(toolFails, invoked) {
          var k :| 0 <= k < |invoked| && toolFails(invoked[k]);
          assert rest[k - 1] == invoked[k];
          var j :| 0 <= j < |gated[1..]| && toolFails(gated[1..][j]);
          assert gated[j + 1] == gated[1..][j];
        }
      }
    }
  }

  /** Docker and Bazel are gated on rapid mode being off and on the filter; the
      detector tool only on the filter. */
  lemma ToolGates(ctx: RunContext)
    ensures Docker in GatedTools(ctx) <==> !ctx.rapidMode && Docker in ctx.includedTools
    ensures Bazel in GatedTools(ctx) <==> !ctx.rapidMode && Bazel in ctx.includedTools
    ensures Detector in GatedTools(ctx) <==> Detector in ctx.includedTools
    ensures forall t :: t in GatedTools(ctx) ==> t == Docker || t == Bazel || t == Detector
  {
  }

  /** A gated tool is executed iff no gated tool before it failed. */
  lemma {:induction false} ToolRunsIffNoEarlierFailure(toolFails: DetectTool -> bool, gated: seq<DetectTool>, k: nat)
    requires k < |gated|
    ensures k < |InvokedTools(toolFails, gated)| <==> forall j :: 0 <= j < k ==> !toolFails(gated[j])
  {
    if k > 0 && !toolFails(gated[0]) {
      ToolRunsIffNoEarlierFailure(toolFails, gated[1..], k - 1);
      assert forall j :: 1 <= j < k ==> gated[1..][j - 1] == gated[j];
    }
  }

  /** The Polaris operation runs iff the product data asks for Polaris, the filter
      includes it and rapid mode is off. */
  lemma PolarisRunsIff(ctx: RunContext)
    ensures PolarisOperation in PlannedOperations(ctx)
            <==> ctx.shouldUsePolarisProduct && Polaris in ctx.includedTools && !ctx.rapidMode
  {
    var universal := UniversalOperations(ctx);
    assert PolarisOperation !in universal;
    if ctx.shouldUseBlackDuckProduct {
      var blackDuck := BlackDuckOperations(ctx, DecidedNameVersion(ctx));
      assert PolarisOperation !in blackDuck by {
        if !(ctx.rapidMode && ctx.online) {
          var nv := DecidedNameVersion(ctx);
          assert FullScanOperations(ctx, nv) == ProjectOperations(ctx, nv) + (ScanOperations(ctx, nv) + PostScanOperations(ctx, nv));
        }
      }
    }
  }

  /** The universal result fails iff some executed tool failed, iff some gated tool
      would fail; either way it carries the decided project. */
  lemma UniversalResultFailureIff(ctx: RunContext)
    ensures UniversalResult(ctx).AnyFailed() <==> AnyFails(ctx.toolFails, ToolsRun(ctx))
    ensures UniversalResult(ctx).AnyFailed() <==> AnyFails(ctx.toolFails, GatedTools(ctx))
    ensures UniversalResult(ctx).GetNameVersion() == DecidedNameVersion(ctx)
  {
    InvokedToolsFailIff(ctx.toolFails, GatedTools(ctx));
  }

  /** With the Black Duck product, the aggregate options are built from exactly the
      universal result's failure flag, right after the project decision. */
  lemma AggregateOptionsReceiveAnyFailed(ctx: RunContext)
    requires ctx.shouldUseBlackDuckProduct
    ensures var ops, k := PlannedOperations(ctx), |PolarisOperations(ctx) + UniversalOperations(ctx)|;
      && k < |ops| && ops[k] == AggregateOptionsOperation(UniversalResult(ctx).AnyFailed())
      && ops[k - 1] == ProjectDecisionOperation(ToolsRun(ctx))
  {
  }

  /** In rapid mode and online, the Black Duck product runs only the BDIO generation
      and the rapid scan: no project, no code locations, no post actions. */
  lemma RapidOnlineRunsOnlyRapidScan(ctx: RunContext)
    requires ctx.rapidMode && ctx.online
    ensures BlackDuckOperations(ctx, DecidedNameVersion(ctx))
            == [BdioFileGenerationOperation(DecidedNameVersion(ctx)), RapidScanOperation(DecidedNameVersion(ctx))]
    ensures forall op :: op in PlannedOperations(ctx) ==>
      !op.ProjectCreationOperation? && !op.CodeLocationResultCalculationOperation?
      && !op.FullScanPostProcessingOperation? && !op.SignatureScanOperation?
  {
    var universal := UniversalOperations(ctx);
    UniversalOperationKinds(ctx);
  }

  /** Offline, the Black Duck product plans no project, binary scan, post processing
      or rapid scan, and gives the impact analysis a null project version. */
  lemma OfflineBlackDuckOperations(ctx: RunContext)
    requires !ctx.online
    ensures forall op :: op in BlackDuckProductOperations(ctx) ==>
      && !op.ProjectCreationOperation? && !op.FullScanPostProcessingOperation?
      && !op.BinaryScanOperation? && !op.StartPhoneHome? && !op.RapidScanOperation?
      && (op.ImpactAnalysisOperation? ==> op.projectVersion == None)
  {
    var nv := DecidedNameVersion(ctx);
    var scans, postScans := ScanOperations(ctx, nv), PostScanOperations(ctx, nv);
    if ctx.shouldUseBlackDuckProduct {
      assert BlackDuckProductOperations(ctx) == [AggregateOptionsOperation(UniversalResult(ctx).AnyFailed())]
                                                + ([BdioFileGenerationOperation(nv)] + ([] + (scans + postScans)));
    }
  }

  /** Offline, no project is created, no binary scan or post actions run, and the
      impact analysis sees a null project version. */
  lemma OfflineCreatesNoProject(ctx: RunContext)
    requires !ctx.online
    ensures ProjectVersionFor(ctx) == None
    ensures forall op :: op in PlannedOperations(ctx) ==>
      && !op.ProjectCreationOperation? && !op.FullScanPostProcessingOperation?
      && !op.BinaryScanOperation? && !op.StartPhoneHome? && !op.RapidScanOperation?
    ensures forall op :: op in PlannedOperations(ctx) && op.ImpactAnalysisOperation? ==> op.projectVersion == None
  {
    UniversalOperationKinds(ctx);
    OfflineBlackDuckOperations(ctx);
  }

  /** What is waited on: the present upload result, the present signature scan result
      when that tool is included, and the present binary scan result when it is
      included and the run is online, in that order. Impact analysis names are
      never waited on. */
  lemma WaitableCodeLocations(ctx: RunContext, data: CodeLocationCreationData)
    ensures data in Waitable(ctx) <==>
      || ctx.uploadResult == Some(data)
      || (SignatureScan in ctx.includedTools && ctx.signatureScanResult == Some(data))
      || (BinaryScan in ctx.includedTools && ctx.online && ctx.binaryScanResult == Some(data))
    ensures |Waitable(ctx)| <= 3
    ensures NonWaitable(ctx) != [] ==> ImpactAnalysisRuns(ctx)
  {
  }

  lemma InvokedToolsCons(toolFails: DetectTool -> bool, tool: DetectTool, rest: seq<DetectTool>)
    ensures InvokedTools(toolFails, [tool] + rest) == [tool] + (if toolFails(tool) then [] else InvokedTools(toolFails, rest))
  {
    assert ([tool] + rest)[1..] == rest;
  }

  lemma ToolOperationsConcat(a: seq<DetectTool>, b: seq<DetectTool>)
    ensures ToolOperations(a + b) == ToolOperations(a) + ToolOperations(b)
  {
    assert forall k :: 0 <= k < |a + b| ==> ToolOperations(a + b)[k] == (ToolOperations(a) + ToolOperations(b))[k];
  }

  lemma AnyFailsConcat(toolFails: DetectTool -> bool, a: seq<DetectTool>, b: seq<DetectTool>)
    ensures AnyFails(toolFails, a + b) <==> AnyFails(toolFails, a) || AnyFails(toolFails, b)
  {
    if AnyFails(toolFails, a + b) {
      var k :| 0 <= k < |a + b| && toolFails((a + b)[k]);
      if k < |a| {
        assert a[k] == (a + b)[k];
      } else {
        assert b[k - |a|] == (a + b)[k];
      }
    }
    if AnyFails(toolFails, a) {
      var k :| 0 <= k < |a| && toolFails(a[k]);
      assert (a + b)[k] == a[k];
    }
    if AnyFails(toolFails, b) {
      var k :| 0 <= k < |b| && toolFails(b[k]);
      assert (a + b)[|a| + k] == b[k];
    }
  }

  /** The tools run by one block: its tool, when the gate is open and nothing failed before. */
  function BlockRun(gateOpen: bool, failedBefore: bool, tool: DetectTool): seq<DetectTool> {
    if gateOpen && !failedBefore then [tool] else []
  }

  /** The operations of one tool block. */
  function GatedToolOperations(tool: DetectTool, gateOpen: bool, failedBefore: bool): seq<Operation> {
    if gateOpen && !failedBefore then [ToolOperation(tool)] else []
  }

  /** The three tool blocks of runUniversalProjectTools, one after the other, run
      exactly ToolsRun. */
  lemma ToolsRunByBlocks(ctx: RunContext)
    ensures var f := ctx.toolFails;
      var dockerOpen := !ctx.rapidMode && Docker in ctx.includedTools;
      var bazelOpen := !ctx.rapidMode && Bazel in ctx.includedTools;
      var detectorOpen := Detector in ctx.includedTools;
      var afterDocker := dockerOpen && f(Docker);
      var afterBazel := afterDocker || (bazelOpen && f(Bazel));
      ToolsRun(ctx) == BlockRun(dockerOpen, false, Docker) + BlockRun(bazelOpen, afterDocker, Bazel)
                       + BlockRun(detectorOpen, afterBazel, Detector)
  {
    var f := ctx.toolFails;
    var dockerOpen := !ctx.rapidMode && Docker in ctx.includedTools;
    var bazelOpen := !ctx.rapidMode && Bazel in ctx.includedTools;
    var detectorOpen := Detector in ctx.includedTools;
    var afterDocker := dockerOpen && f(Docker);
    var afterBazel := afterDocker || (bazelOpen && f(Bazel));
    var dockerGate := if dockerOpen then [Docker] else [];
    var bazelGate := if bazelOpen then [Bazel] else [];
    var detectorGate := if detectorOpen then [Detector] else [];
    ConcatAssociative(dockerGate, bazelGate, detectorGate);
    assert GatedTools(ctx) == dockerGate + (bazelGate + detectorGate);
    var detectorRun := BlockRun(detectorOpen, afterBazel, Detector);
    if detectorOpen {
      InvokedToolsCons(f, Detector, []);
    }
    assert (if afterBazel then [] else InvokedTools(f, detectorGate)) == detectorRun;
    var bazelRun := BlockRun(bazelOpen, afterDocker, Bazel);
    if bazelOpen {
      InvokedToolsCons(f, Bazel, detectorGate);
    } else {
      assert bazelGate + detectorGate == detectorGate;
    }
    assert (if afterDocker then [] else InvokedTools(f, bazelGate + detectorGate)) == bazelRun + detectorRun;
    var dockerRun := BlockRun(dockerOpen, false, Docker);
    if dockerOpen {
      InvokedToolsCons(f, Docker, bazelGate + detectorGate);
    } else {
      assert dockerGate + (bazelGate + detectorGate) == bazelGate + detectorGate;
    }
    assert ToolsRun(ctx) == dockerRun + (bazelRun + detectorRun);
    ConcatAssociative(dockerRun, bazelRun, detectorRun);
  }

  /** The log the three tool blocks write is the log of ToolsRun, and the flag they
      leave is whether one of those tools failed. */
  lemma ToolBlocksRunToolsRun(ctx: RunContext)
    ensures var f := ctx.toolFails;
      var dockerOpen := !ctx.rapidMode && Docker in ctx.includedTools;
      var bazelOpen := !ctx.rapidMode && Bazel in ctx.includedTools;
      var detectorOpen := Detector in ctx.includedTools;
      var afterDocker := dockerOpen && f(Docker);
      var afterBazel := afterDocker || (bazelOpen && f(Bazel));
      var afterDetector := afterBazel || (detectorOpen && f(Detector));
      && ToolOperations(ToolsRun(ctx))
         == GatedToolOperations(Docker, dockerOpen, false)
            + (GatedToolOperations(Bazel, bazelOpen, afterDocker)
               + GatedToolOperations(Detector, detectorOpen, afterBazel))
      && (AnyFails(f, ToolsRun(ctx)) <==> afterDetector)
  {
    var f := ctx.toolFails;
    var dockerOpen := !ctx.rapidMode && Docker in ctx.includedTools;
    var bazelOpen := !ctx.rapidMode && Bazel in ctx.includedTools;
    var detectorOpen := Detector in ctx.includedTools;
    var afterDocker := dockerOpen && f(Docker);
    var afterBazel := afterDocker || (bazelOpen && f(Bazel));
    var dockerRun := BlockRun(dockerOpen, false, Docker);
    var bazelRun := BlockRun(bazelOpen, afterDocker, Bazel);
    var detectorRun := BlockRun(detectorOpen, afterBazel, Detector);
    ToolsRunByBlocks(ctx);
    ConcatAssociative(dockerRun, bazelRun, detectorRun);
    assert ToolOperations(ToolsRun(ctx)) == ToolOperations(dockerRun) + (ToolOperations(bazelRun) + ToolOperations(detectorRun)) by {
      ToolOperationsConcat(bazelRun, detectorRun);
      ToolOperationsConcat(dockerRun, bazelRun + detectorRun);
    }
    BlockOperations(dockerOpen, false, Docker, f);
    BlockOperations(bazelOpen, afterDocker, Bazel, f);
    BlockOperations(detectorOpen, afterBazel, Detector, f);
    assert AnyFails(f, ToolsRun(ctx)) <==> AnyFails(f, dockerRun) || AnyFails(f, bazelRun) || AnyFails(f, detectorRun) by {
      AnyFailsConcat(f, dockerRun, bazelRun);
      AnyFailsConcat(f, dockerRun + bazelRun, detectorRun);
    }
  }

  /** One block's operations, and whether its tool failed. */
  lemma BlockOperations(gateOpen: bool, failedBefore: bool, tool: DetectTool, toolFails: DetectTool -> bool)
    ensures ToolOperations(BlockRun(gateOpen, failedBefore, tool)) == GatedToolOperations(tool, gateOpen, failedBefore)
    ensures AnyFails(toolFails, BlockRun(gateOpen, failedBefore, tool)) <==> gateOpen && !failedBefore && toolFails(tool)
  {
    if gateOpen && !failedBefore {
      assert BlockRun(gateOpen, failedBefore, tool)[0] == tool;
    }
  }


  /** The universal operations are tool operations and the project decision. */
  lemma UniversalOperationKinds(ctx: RunContext)
    ensures forall op :: op in UniversalOperations(ctx) ==> op.ToolOperation? || op.ProjectDecisionOperation?
  {
    var tools := ToolOperations(ToolsRun(ctx));
    assert forall k :: 0 <= k < |tools| ==> tools[k].ToolOperation?;
  }

  // ---------------------------------------------------------------------------
  // Operations that throw

  /** The operations whose `execute` declares checked exceptions: all but the Polaris
      operation and starting phone-home. */
  predicate MayThrow(op: Operation) {
    !op.PolarisOperation? && !op.StartPhoneHome?
  }

  /** Which operations of this run end by throwing. */
  function ThrowsIn(ctx: RunContext): Operation -> bool {
    op => MayThrow(op) && ctx.operationThrows(op)
  }

  /** The operations a run executes: the planned ones up to and including the first
      that throws. */
  function ExecutedOperations(ctx: RunContext): seq<Operation> {
    UpToFirst(PlannedOperations(ctx), ThrowsIn(ctx))
  }

  /** The run ends by throwing. */
  predicate RunThrows(ctx: RunContext) {
    AnyHolds(PlannedOperations(ctx), ThrowsIn(ctx))
  }

  /** The executed operations are a prefix of the planned ones, all but the last
      completed normally, the run throws iff the last one threw, and a run in which
      nothing throws executes every planned operation. */
  lemma ExecutedOperationsStopAtFirstThrow(ctx: RunContext)
    ensures var planned, executed := PlannedOperations(ctx), ExecutedOperations(ctx);
      && |executed| <= |planned| && executed == planned[..|executed|]
      && (forall k :: 0 <= k < |executed| - 1 ==> !ctx.operationThrows(executed[k]) || !MayThrow(executed[k]))
      && (RunThrows(ctx) <==> executed != [] && MayThrow(executed[|executed| - 1])
                                              && ctx.operationThrows(executed[|executed| - 1]))
      && (!RunThrows(ctx) ==> executed == planned)
  {
    var planned, executed, p := PlannedOperations(ctx), ExecutedOperations(ctx), ThrowsIn(ctx);
    UpToFirstStops(planned, p);
    forall k | 0 <= k < |executed| - 1
      ensures !ctx.operationThrows(executed[k]) || !MayThrow(executed[k])
    {
      assert !p(executed[k]);
    }
    if executed != [] {
      assert p(executed[|executed| - 1]) <==> MayThrow(executed[|executed| - 1]) && ctx.operationThrows(executed[|executed| - 1]);
    }
  }

  /** The Polaris product never throws. */
  lemma PolarisNeverThrows(ctx: RunContext)
    ensures !AnyHolds(PolarisOperations(ctx), ThrowsIn(ctx))
    ensures UpToFirst(PolarisOperations(ctx), ThrowsIn(ctx)) == PolarisOperations(ctx)
  {
    UpToFirstAtMostOne(PolarisOperations(ctx), ThrowsIn(ctx));
  }

  /** The operations that come with or after the scans of a full scan. */
  predicate ScanOrLater(op: Operation) {
    || op.BdioUploadOperation? || op.SignatureScanOperation? || op.BinaryScanOperation?
    || op.ImpactAnalysisOperation? || op.CodeLocationResultCalculationOperation?
    || op.FullScanPostProcessingOperation?
  }

  /** When the project creation of a full online scan throws, the run throws, and every
      operation it executes is planned before the scans. */
  lemma ProjectCreationThrowBoundsRun(ctx: RunContext)
    requires ctx.shouldUseBlackDuckProduct && ctx.online && !ctx.rapidMode
    requires ctx.operationThrows(ProjectCreationOperation(DecidedNameVersion(ctx)))
    ensures RunThrows(ctx)
    ensures forall op :: op in ExecutedOperations(ctx) ==>
      || op in PolarisOperations(ctx) || op in UniversalOperations(ctx)
      || op.AggregateOptionsOperation? || op.BdioFileGenerationOperation?
      || op in ProjectOperations(ctx, DecidedNameVersion(ctx))
  {
    var nv, p := DecidedNameVersion(ctx), ThrowsIn(ctx);
    var polaris, universal := PolarisOperations(ctx), UniversalOperations(ctx);
    var aggregate := [AggregateOptionsOperation(UniversalResult(ctx).AnyFailed())];
    var generation := [BdioFileGenerationOperation(nv)];
    var phoneHome, creation := PhoneHomeOperations(ctx), [ProjectCreationOperation(nv)];
    var project := ProjectOperations(ctx, nv);
    var fullScan := project + (ScanOperations(ctx, nv) + PostScanOperations(ctx, nv));
    var blackDuck := aggregate + (generation + fullScan);
    assert PlannedOperations(ctx) == polaris + (universal + blackDuck);
    assert AnyHolds(project, p) by {
      UpToFirstSingle(ProjectCreationOperation(nv), p);
      AnyHoldsConcat(phoneHome, creation, p);
    }
    UpToFirstWithin(project, ScanOperations(ctx, nv) + PostScanOperations(ctx, nv), p);
    UpToFirstMembers(generation, fullScan, p);
    UpToFirstMembers(aggregate, generation + fullScan, p);
    UpToFirstMembers(universal, blackDuck, p);
    UpToFirstMembers(polaris, universal + blackDuck, p);
  }

  /** A project creation that throws in a full online scan ends the run: it throws, and
      no upload, scan, code-location calculation or post processing is executed. */
  lemma ProjectCreationThrowStopsRun(ctx: RunContext)
    requires ctx.shouldUseBlackDuckProduct && ctx.online && !ctx.rapidMode
    requires ctx.operationThrows(ProjectCreationOperation(DecidedNameVersion(ctx)))
    ensures RunThrows(ctx)
    ensures forall op :: op in ExecutedOperations(ctx) ==> !ScanOrLater(op)
  {
    ProjectCreationThrowBoundsRun(ctx);
    UniversalOperationKinds(ctx);
    PolarisNeverThrows(ctx);
    ghost var project := ProjectOperations(ctx, DecidedNameVersion(ctx));
    assert forall op :: op in project ==> op.StartPhoneHome? || op.ProjectCreationOperation?;
  }

  // ---------------------------------------------------------------------------
  // The run

  class RunManager {
    const operationLog: OperationLog
    const eventSystem: EventSystem

    constructor (operationLog: OperationLog, eventSystem: EventSystem)
      ensures this.operationLog == operationLog && this.eventSystem == eventSystem
    {
      this.operationLog := operationLog;
      this.eventSystem := eventSystem;
    }

    /** Executes the planned operations up to the first that throws, and publishes the
        chosen project unless the run threw before it was decided. */
    method Run(ctx: RunContext) returns (threw: bool)
      modifies operationLog, eventSystem
      ensures operationLog.operations == old(operationLog.operations) + ExecutedOperations(ctx)
      ensures threw <==> RunThrows(ctx)
      ensures eventSystem.events == old(eventSystem.events)
        + (if AnyHolds(UniversalOperations(ctx), ThrowsIn(ctx)) then [] else [ProjectNameVersionChosen(DecidedNameVersion(ctx))])
    {
      ghost var before, p := operationLog.operations, ThrowsIn(ctx);
      ghost var planned := PlannedOperations(ctx);
      ghost var universalOps, blackDuckOps := UniversalOperations(ctx), BlackDuckProductOperations(ctx);
      CarryOutStart(before, planned, p);
      if ctx.shouldUsePolarisProduct {
        RunPolarisProduct(ctx);
      }
      PolarisNeverThrows(ctx);
      CarryOutNormal(before, planned, [], PolarisOperations(ctx), universalOps + blackDuckOps, before, operationLog.operations, p);
      ghost var done, log := [] + PolarisOperations(ctx), operationLog.operations;
      var universalToolsResult := RunUniversalProjectTools(ctx);
      CarryOutStep(before, planned, done, universalOps, blackDuckOps, log, operationLog.operations, p);
      if universalToolsResult.Abrupt? {
        return true;
      }
      done, log := done + universalOps, operationLog.operations;
      if ctx.shouldUseBlackDuckProduct {
        UniversalResultFailureIff(ctx);
        var aggregate := AggregateOptionsOperation(universalToolsResult.value.AnyFailed());
        ghost var rest := BlackDuckOperations(ctx, DecidedNameVersion(ctx));
        threw := ExecuteOperation(ctx, aggregate);
        CarryOutStep(before, planned, done, [aggregate], rest, log, operationLog.operations, p);
        if threw {
          return;
        }
        done, log := done + [aggregate], operationLog.operations;
        threw := RunBlackDuckProduct(ctx, universalToolsResult.value.GetNameVersion());
        CarryOutLast(before, planned, done, rest, log, operationLog.operations, p);
      } else {
        threw := false;
        UpToFirstEmpty(p);
        CarryOutLast(before, planned, done, [], log, operationLog.operations, p);
      }
    }

    method RunPolarisProduct(ctx: RunContext)
      requires ctx.shouldUsePolarisProduct
      modifies operationLog
      ensures operationLog.operations == old(operationLog.operations) + PolarisOperations(ctx)
    {
      if Polaris in ctx.includedTools && !ctx.rapidMode {
        operationLog.Record(PolarisOperation);
      }
    }

    /** Executes one operation: it is recorded, and tells whether it threw. */
    method ExecuteOperation(ctx: RunContext, operation: Operation) returns (threw: bool)
      modifies operationLog
      ensures operationLog.operations == old(operationLog.operations) + [operation]
      ensures operationLog.operations == old(operationLog.operations) + UpToFirst([operation], ThrowsIn(ctx))
      ensures threw == ThrowsIn(ctx)(operation)
      ensures threw <==> AnyHolds([operation], ThrowsIn(ctx))
    {
      operationLog.Record(operation);
      threw := ThrowsIn(ctx)(operation);
      UpToFirstSingle(operation, ThrowsIn(ctx));
    }

    /** Executes one universal tool operation; unless it threw, `failed` is its result. */
    method ExecuteTool(ctx: RunContext, tool: DetectTool) returns (failed: bool, threw: bool)
      modifies operationLog
      ensures operationLog.operations == old(operationLog.operations) + UpToFirst([ToolOperation(tool)], ThrowsIn(ctx))
      ensures threw <==> AnyHolds([ToolOperation(tool)], ThrowsIn(ctx))
      ensures !threw ==> failed == ctx.toolFails(tool)
    {
      threw := ExecuteOperation(ctx, ToolOperation(tool));
      failed := !threw && ctx.toolFails(tool);
    }

    method RunUniversalProjectTools(ctx: RunContext) returns (result: Completion<UniversalToolsResult>)
      modifies operationLog, eventSystem
      ensures operationLog.operations == old(operationLog.operations) + UpToFirst(UniversalOperations(ctx), ThrowsIn(ctx))
      ensures result.Abrupt? <==> AnyHolds(UniversalOperations(ctx), ThrowsIn(ctx))
      ensures result.Normal? ==> result.value == UniversalResult(ctx)
      ensures eventSystem.events == old(eventSystem.events)
        + (if result.Abrupt? then [] else [ProjectNameVersionChosen(DecidedNameVersion(ctx))])
    {
      ghost var before, p := operationLog.operations, ThrowsIn(ctx);
      ghost var planned := UniversalOperations(ctx);
      var toolsRun := ToolsRun(ctx);
      ghost var decision := [ProjectDecisionOperation(toolsRun)];
      CarryOutStart(before, planned, p);
      var anythingFailed, threw := RunToolBlocks(ctx);
      CarryOutStep(before, planned, [], ToolOperations(toolsRun), decision, before, operationLog.operations, p);
      if threw {
        return Abrupt;
      }
      ghost var done, log := [] + ToolOperations(toolsRun), operationLog.operations;
      threw := ExecuteOperation(ctx, ProjectDecisionOperation(toolsRun));
      CarryOutLast(before, planned, done, decision, log, operationLog.operations, p);
      if threw {
        return Abrupt;
      }
      var projectNameVersion := ctx.decideProject(toolsRun);
      eventSystem.PublishEvent(ProjectNameVersionChosen(projectNameVersion));
      if anythingFailed {
        result := Normal(Failure(projectNameVersion));
      } else {
        result := Normal(Success(projectNameVersion));
      }
    }

    /** The three tool blocks of runUniversalProjectTools, Docker, Bazel and detectors,
        up to the first that throws; unless one threw, `anythingFailed` says whether a
        tool that ran failed. */
    method RunToolBlocks(ctx: RunContext) returns (anythingFailed: bool, threw: bool)
      modifies operationLog
      ensures operationLog.operations == old(operationLog.operations) + UpToFirst(ToolOperations(ToolsRun(ctx)), ThrowsIn(ctx))
      ensures threw <==> AnyHolds(ToolOperations(ToolsRun(ctx)), ThrowsIn(ctx))
      ensures !threw ==> anythingFailed == AnyFails(ctx.toolFails, ToolsRun(ctx))
    {
      ghost var before, p := operationLog.operations, ThrowsIn(ctx);
      ghost var f := ctx.toolFails;
      var dockerOpen := !ctx.rapidMode && Docker in ctx.includedTools;
      var bazelOpen := !ctx.rapidMode && Bazel in ctx.includedTools;
      var detectorOpen := Detector in ctx.includedTools;
      ghost var afterDocker := dockerOpen && f(Docker);
      ghost var afterBazel := afterDocker || (bazelOpen && f(Bazel));
      ghost var dockerOps := GatedToolOperations(Docker, dockerOpen, false);
      ghost var bazelOps := GatedToolOperations(Bazel, bazelOpen, afterDocker);
      ghost var detectorOps := GatedToolOperations(Detector, detectorOpen, afterBazel);
      ghost var planned := ToolOperations(ToolsRun(ctx));
      ToolBlocksRunToolsRun(ctx);
      CarryOutStart(before, planned, p);
      anythingFailed, threw := RunGatedTool(ctx, Docker, dockerOpen, false);
      CarryOutStep(before, planned, [], dockerOps, bazelOps + detectorOps, before, operationLog.operations, p);
      if threw {
        return;
      }
      ghost var done, log := [] + dockerOps, operationLog.operations;
      anythingFailed, threw := RunGatedTool(ctx, Bazel, bazelOpen, anythingFailed);
      CarryOutStep(before, planned, done, bazelOps, detectorOps, log, operationLog.operations, p);
      if threw {
        return;
      }
      done, log := done + bazelOps, operationLog.operations;
      anythingFailed, threw := RunGatedTool(ctx, Detector, detectorOpen, anythingFailed);
      CarryOutLast(before, planned, done, detectorOps, log, operationLog.operations, p);
    }

    /** One tool block of runUniversalProjectTools: when the gate is open, the tool
        is executed unless an earlier one failed, and its failure is or-ed into the
        flag. */
    method RunGatedTool(ctx: RunContext, tool: DetectTool, gateOpen: bool, anythingFailed: bool)
      returns (failed: bool, threw: bool)
      modifies operationLog
      ensures operationLog.operations == old(operationLog.operations)
        + UpToFirst(GatedToolOperations(tool, gateOpen, anythingFailed), ThrowsIn(ctx))
      ensures threw <==> AnyHolds(GatedToolOperations(tool, gateOpen, anythingFailed), ThrowsIn(ctx))
      ensures !threw ==> failed == (anythingFailed || (gateOpen && ctx.toolFails(tool)))
    {
      failed, threw := anythingFailed, false;
      UpToFirstEmpty(ThrowsIn(ctx));
      if gateOpen {
        if !failed {
          failed, threw := ExecuteTool(ctx, tool);
        }
      }
    }

    /** Executes the Black Duck operations up to the first that throws. */
    method RunBlackDuckProduct(ctx: RunContext, projectNameVersion: NameVersion) returns (threw: bool)
      modifies operationLog
      ensures operationLog.operations == old(operationLog.operations)
        + UpToFirst(BlackDuckOperations(ctx, projectNameVersion), ThrowsIn(ctx))
      ensures threw <==> AnyHolds(BlackDuckOperations(ctx, projectNameVersion), ThrowsIn(ctx))
    {
      ghost var before, p := operationLog.operations, ThrowsIn(ctx);
      ghost var planned := BlackDuckOperations(ctx, projectNameVersion);
      var generation := BdioFileGenerationOperation(projectNameVersion);
      ghost var rest := if ctx.rapidMode && ctx.online then [RapidScanOperation(projectNameVersion)]
                        else FullScanOperations(ctx, projectNameVersion);
      CarryOutStart(before, planned, p);
      threw := ExecuteOperation(ctx, generation);
      CarryOutStep(before, planned, [], [generation], rest, before, operationLog.operations, p);
      if threw {
        return;
      }
      ghost var done, log := [] + [generation], operationLog.operations;
      if ctx.rapidMode && ctx.online {
        threw := ExecuteOperation(ctx, RapidScanOperation(projectNameVersion));
        CarryOutLast(before, planned, done, rest, log, operationLog.operations, p);
        return;
      }
      ghost var projectOps := ProjectOperations(ctx, projectNameVersion);
      ghost var scanOps, postOps := ScanOperations(ctx, projectNameVersion), PostScanOperations(ctx, projectNameVersion);
      var projectVersionWrapper := RunProjectCreation(ctx, projectNameVersion);
      CarryOutStep(before, planned, done, projectOps, scanOps + postOps, log, operationLog.operations, p);
      if projectVersionWrapper.Abrupt? {
        return true;
      }
      done, log := done + projectOps, operationLog.operations;
      var codeLocationAccumulator := new CodeLocationAccumulator();
      threw := RunScans(ctx, projectNameVersion, projectVersionWrapper.value, DockerTarFor(ctx), codeLocationAccumulator);
      CarryOutStep(before, planned, done, scanOps, postOps, log, operationLog.operations, p);
      if threw {
        return;
      }
      done, log := done + scanOps, operationLog.operations;
      threw := RunPostScan(ctx, projectNameVersion, projectVersionWrapper.value, codeLocationAccumulator);
      CarryOutLast(before, planned, done, postOps, log, operationLog.operations, p);
    }

    /** The project part of runBlackDuckProduct: when online, phone-home starts and the
        project is created; unless that throws, the created project is handed on. */
    method RunProjectCreation(ctx: RunContext, projectNameVersion: NameVersion)
      returns (projectVersionWrapper: Completion<Option<ProjectVersionWrapper>>)
      modifies operationLog
      ensures operationLog.operations == old(operationLog.operations)
        + UpToFirst(ProjectOperations(ctx, projectNameVersion), ThrowsIn(ctx))
      ensures projectVersionWrapper.Abrupt? <==> AnyHolds(ProjectOperations(ctx, projectNameVersion), ThrowsIn(ctx))
      ensures projectVersionWrapper.Normal? ==> projectVersionWrapper.value == ProjectVersionFor(ctx)
    {
      ghost var p := ThrowsIn(ctx);
      if !ctx.online {
        UpToFirstEmpty(p);
        return Normal(None);
      }
      ghost var before, planned := operationLog.operations, ProjectOperations(ctx, projectNameVersion);
      var creation := ProjectCreationOperation(projectNameVersion);
      CarryOutStart(before, planned, p);
      if ctx.hasPhoneHomeManager {
        operationLog.Record(StartPhoneHome);
      }
      UpToFirstAtMostOne(PhoneHomeOperations(ctx), p);
      CarryOutNormal(before, planned, [], PhoneHomeOperations(ctx), [creation], before, operationLog.operations, p);
      ghost var done, log := [] + PhoneHomeOperations(ctx), operationLog.operations;
      var threw := ExecuteOperation(ctx, creation);
      CarryOutLast(before, planned, done, [creation], log, operationLog.operations, p);
      if threw {
        return Abrupt;
      }
      projectVersionWrapper := Normal(ctx.createdProject);
    }

    /** The end of runBlackDuckProduct: the code-location results are calculated from
        the accumulator, and the post actions run when online. */
    method RunPostScan(ctx: RunContext, projectNameVersion: NameVersion, projectVersionWrapper: Option<ProjectVersionWrapper>,
                       codeLocationAccumulator: CodeLocationAccumulator) returns (threw: bool)
      requires projectVersionWrapper == ProjectVersionFor(ctx)
      requires codeLocationAccumulator.waitable == Waitable(ctx) && codeLocationAccumulator.nonWaitable == NonWaitable(ctx)
      modifies operationLog
      ensures operationLog.operations == old(operationLog.operations)
        + UpToFirst(PostScanOperations(ctx, projectNameVersion), ThrowsIn(ctx))
      ensures threw <==> AnyHolds(PostScanOperations(ctx, projectNameVersion), ThrowsIn(ctx))
    {
      ghost var before, p := operationLog.operations, ThrowsIn(ctx);
      ghost var planned := PostScanOperations(ctx, projectNameVersion);
      var calculation := CodeLocationResultCalculationOperation(codeLocationAccumulator.waitable, codeLocationAccumulator.nonWaitable);
      ghost var postProcessing := PostProcessingOperations(ctx, projectNameVersion, projectVersionWrapper);
      CarryOutStart(before, planned, p);
      threw := ExecuteOperation(ctx, calculation);
      CarryOutStep(before, planned, [], [calculation], postProcessing, before, operationLog.operations, p);
      if threw {
        return;
      }
      ghost var done, log := [] + [calculation], operationLog.operations;
      if ctx.online {
        threw := ExecuteOperation(ctx, FullScanPostProcessingOperation(projectNameVersion, projectVersionWrapper));
      } else {
        UpToFirstEmpty(p);
      }
      CarryOutLast(before, planned, done, postProcessing, log, operationLog.operations, p);
    }

    /** The code-location part of runBlackDuckProduct: the BDIO upload and the
        signature, binary and impact analysis scans, each adding what it produced
        to the accumulator, up to the first that throws. */
    method RunScans(ctx: RunContext, projectNameVersion: NameVersion, projectVersionWrapper: Option<ProjectVersionWrapper>,
                    dockerTar: Option<string>, codeLocationAccumulator: CodeLocationAccumulator) returns (threw: bool)
      requires projectVersionWrapper == ProjectVersionFor(ctx) && dockerTar == DockerTarFor(ctx)
      requires codeLocationAccumulator.waitable == [] && codeLocationAccumulator.nonWaitable == []
      modifies operationLog, codeLocationAccumulator
      ensures operationLog.operations == old(operationLog.operations)
        + UpToFirst(ScanOperations(ctx, projectNameVersion), ThrowsIn(ctx))
      ensures threw <==> AnyHolds(ScanOperations(ctx, projectNameVersion), ThrowsIn(ctx))
      ensures !threw ==> codeLocationAccumulator.waitable == Waitable(ctx)
      ensures !threw ==> codeLocationAccumulator.nonWaitable == NonWaitable(ctx)
    {
      ghost var before, p := operationLog.operations, ThrowsIn(ctx);
      ghost var planned := ScanOperations(ctx, projectNameVersion);
      ghost var signatureOps := SignatureScanOperations(ctx, projectNameVersion, dockerTar);
      ghost var binaryOps := BinaryScanOperations(ctx, projectNameVersion);
      ghost var impactOps := ImpactAnalysisOperations(ctx, projectNameVersion, projectVersionWrapper);
      CarryOutStart(before, planned, p);
      threw := ExecuteOperation(ctx, BdioUploadOperation);
      CarryOutStep(before, planned, [], [BdioUploadOperation], signatureOps + (binaryOps + impactOps),
                   before, operationLog.operations, p);
      if threw {
        return;
      }
      if ctx.uploadResult.Some? {
        codeLocationAccumulator.AddWaitableCodeLocation(ctx.uploadResult.value);
      }
      assert codeLocationAccumulator.waitable == OptionToSeq(ctx.uploadResult);
      ghost var done, log := [] + [BdioUploadOperation], operationLog.operations;
      threw := RunSignatureScan(ctx, projectNameVersion, dockerTar, codeLocationAccumulator);
      CarryOutStep(before, planned, done, signatureOps, binaryOps + impactOps, log, operationLog.operations, p);
      if threw {
        return;
      }
      done, log := done + signatureOps, operationLog.operations;
      threw := RunBinaryScan(ctx, projectNameVersion, codeLocationAccumulator);
      CarryOutStep(before, planned, done, binaryOps, impactOps, log, operationLog.operations, p);
      if threw {
        return;
      }
      done, log := done + binaryOps, operationLog.operations;
      threw := RunImpactAnalysis(ctx, projectNameVersion, projectVersionWrapper, codeLocationAccumulator);
      CarryOutLast(before, planned, done, impactOps, log, operationLog.operations, p);
    }

    method RunSignatureScan(ctx: RunContext, projectNameVersion: NameVersion, dockerTar: Option<string>,
                            codeLocationAccumulator: CodeLocationAccumulator) returns (threw: bool)
      modifies operationLog, codeLocationAccumulator
      ensures operationLog.operations == old(operationLog.operations)
        + UpToFirst(SignatureScanOperations(ctx, projectNameVersion, dockerTar), ThrowsIn(ctx))
      ensures threw <==> AnyHolds(SignatureScanOperations(ctx, projectNameVersion, dockerTar), ThrowsIn(ctx))
      ensures codeLocationAccumulator.waitable == old(codeLocationAccumulator.waitable)
        + (if SignatureScan in ctx.includedTools && !threw then OptionToSeq(ctx.signatureScanResult) else [])
      ensures codeLocationAccumulator.nonWaitable == old(codeLocationAccumulator.nonWaitable)
    {
      threw := false;
      UpToFirstEmpty(ThrowsIn(ctx));
      if SignatureScan in ctx.includedTools {
        threw := ExecuteOperation(ctx, SignatureScanOperation(projectNameVersion, dockerTar));
        if !threw && ctx.signatureScanResult.Some? {
          codeLocationAccumulator.AddWaitableCodeLocation(ctx.signatureScanResult.value);
        }
      }
    }

    method RunBinaryScan(ctx: RunContext, projectNameVersion: NameVersion, codeLocationAccumulator: CodeLocationAccumulator)
      returns (threw: bool)
      modifies operationLog, codeLocationAccumulator
      ensures operationLog.operations == old(operationLog.operations)
        + UpToFirst(BinaryScanOperations(ctx, projectNameVersion), ThrowsIn(ctx))
      ensures threw <==> AnyHolds(BinaryScanOperations(ctx, projectNameVersion), ThrowsIn(ctx))
      ensures codeLocationAccumulator.waitable == old(codeLocationAccumulator.waitable)
        + (if BinaryScan in ctx.includedTools && ctx.online && !threw then OptionToSeq(ctx.binaryScanResult) else [])
      ensures codeLocationAccumulator.nonWaitable == old(codeLocationAccumulator.nonWaitable)
    {
      threw := false;
      UpToFirstEmpty(ThrowsIn(ctx));
      if BinaryScan in ctx.includedTools {
        if ctx.online {
          threw := ExecuteOperation(ctx, BinaryScanOperation(projectNameVersion));
          if !threw && ctx.binaryScanResult.Some? {
            codeLocationAccumulator.AddWaitableCodeLocation(ctx.binaryScanResult.value);
          }
        }
      }
    }

    method RunImpactAnalysis(ctx: RunContext, projectNameVersion: NameVersion, projectVersionWrapper: Option<ProjectVersionWrapper>,
                             codeLocationAccumulator: CodeLocationAccumulator) returns (threw: bool)
      modifies operationLog, codeLocationAccumulator
      ensures operationLog.operations == old(operationLog.operations)
        + UpToFirst(ImpactAnalysisOperations(ctx, projectNameVersion, projectVersionWrapper), ThrowsIn(ctx))
      ensures threw <==> AnyHolds(ImpactAnalysisOperations(ctx, projectNameVersion, projectVersionWrapper), ThrowsIn(ctx))
      ensures codeLocationAccumulator.waitable == old(codeLocationAccumulator.waitable)
      ensures codeLocationAccumulator.nonWaitable == old(codeLocationAccumulator.nonWaitable)
        + (if ImpactAnalysisRuns(ctx) && !threw then ctx.impactAnalysisCodeLocationNames else [])
    {
      threw := false;
      UpToFirstEmpty(ThrowsIn(ctx));
      if ImpactAnalysis in ctx.includedTools && ctx.impactAnalysisEnabled {
        threw := ExecuteOperation(ctx, ImpactAnalysisOperation(projectNameVersion, projectVersionWrapper));
        if !threw {
          codeLocationAccumulator.AddNonWaitableCodeLocation(ctx.impactAnalysisCodeLocationNames);
        }
      }
    }
  }
}
