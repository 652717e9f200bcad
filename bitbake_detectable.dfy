/** The Bitbake (Yocto) detectable: applicable when package names are configured (the
    build-env script is looked up in any case), extractable when bash resolves, and
    extracted with the script and the bash found in those two phases. */
module Bitbake {
  import opened Common
  import opened Detectables

  const PackageNamesRequiredMessage: string := "Bitbake requires that at least one package name is provided."
  const PackageNamesProperty: string := "Bitbake Package Names"
  const BashExecutableName: string := "bash"

  /** BitbakeDetectableOptions; a null package-name list is `None`. */
  datatype BitbakeDetectableOptions = BitbakeDetectableOptions(
    buildEnvName: string,
    sourceArguments: seq<string>,
    packageNames: Option<seq<string>>,
    searchDepth: int)

  /** The arguments the Bitbake extractor is called with. */
  datatype BitbakeExtraction = BitbakeExtraction(
    directory: File,
    buildEnvScript: Option<File>,
    sourceArguments: seq<string>,
    packageNames: Option<seq<string>>,
    searchDepth: int,
    bash: Option<ExecutableTarget>)

  predicate HasPackageNames(options: BitbakeDetectableOptions) {
    options.packageNames.Some? && options.packageNames.value != []
  }

  /** What `applicable` asks of its Requirements, in order. */
  function ApplicableRequirements(options: BitbakeDetectableOptions, fileFinder: FileFinder,
                                  environment: DetectableEnvironment): seq<Requirement>
  {
    [FileRequirement(Some(environment.directory), options.buildEnvName,
                     fileFinder.findFile(Some(environment.directory), options.buildEnvName))]
      + if HasPackageNames(options) then [Explained(PropertyProvided(PackageNamesProperty))] else []
  }

  /** The verdict of `applicable`. */
  function ApplicableVerdict(options: BitbakeDetectableOptions, fileFinder: FileFinder,
                             environment: DetectableEnvironment,
                             verdict: seq<Requirement> -> DetectableResult): DetectableResult
  {
    if HasPackageNames(options) then verdict(ApplicableRequirements(options, fileFinder, environment))
    else PropertyInsufficient(PackageNamesRequiredMessage)
  }

  /** The build-env script is always the first thing looked up. Without package names the
      verdict is PropertyInsufficient with the fixed message, whatever the lookup found;
      with them, the package names are explained as provided and the accumulator decides. */
  lemma ApplicableDecision(options: BitbakeDetectableOptions, fileFinder: FileFinder,
                           environment: DetectableEnvironment, verdict: seq<Requirement> -> DetectableResult)
    ensures var requirements := ApplicableRequirements(options, fileFinder, environment);
      && requirements[0] == FileRequirement(Some(environment.directory), options.buildEnvName,
                                            fileFinder.findFile(Some(environment.directory), options.buildEnvName))
      && (!HasPackageNames(options) ==>
            ApplicableVerdict(options, fileFinder, environment, verdict) == PropertyInsufficient(PackageNamesRequiredMessage))
      && (HasPackageNames(options) ==>
            && requirements == requirements[..1] + [Explained(PropertyProvided(PackageNamesProperty))]
            && ApplicableVerdict(options, fileFinder, environment, verdict) == verdict(requirements))
  {
  }

  class BitbakeDetectable {
    const environment: DetectableEnvironment
    const fileFinder: FileFinder
    const options: BitbakeDetectableOptions
    /** What the bash resolver answers. */
    const resolvedBash: Option<ExecutableTarget>
    /** How a Requirements accumulator decides. */
    const verdict: seq<Requirement> -> DetectableResult
    /** The Bitbake extractor. */
    const extractor: BitbakeExtraction -> Extraction

    var foundBuildEnvScript: Option<File>
    var bashExe: Option<ExecutableTarget>

    constructor (environment: DetectableEnvironment, fileFinder: FileFinder, options: BitbakeDetectableOptions,
                 resolvedBash: Option<ExecutableTarget>, verdict: seq<Requirement> -> DetectableResult,
                 extractor: BitbakeExtraction -> Extraction)
      ensures this.environment == environment && this.fileFinder == fileFinder && this.options == options
      ensures this.resolvedBash == resolvedBash && this.verdict == verdict && this.extractor == extractor
      ensures foundBuildEnvScript == None && bashExe == None
    {
      this.environment := environment;
      this.fileFinder := fileFinder;
      this.options := options;
      this.resolvedBash := resolvedBash;
      this.verdict := verdict;
      this.extractor := extractor;
      foundBuildEnvScript := None;
      bashExe := None;
    }

    method Applicable() returns (result: DetectableResult)
      modifies this
      ensures foundBuildEnvScript == fileFinder.findFile(Some(environment.directory), options.buildEnvName)
      ensures bashExe == old(bashExe)
      ensures result == ApplicableVerdict(options, fileFinder, environment, verdict)
    {
      var requirements := new Requirements(fileFinder, environment, verdict);
      foundBuildEnvScript := requirements.RequireFile(options.buildEnvName);
      if options.packageNames == None || options.packageNames.value == [] {
        return PropertyInsufficient(PackageNamesRequiredMessage);
      } else {
        requirements.Explain(PropertyProvided(PackageNamesProperty));
      }
      assert requirements.recorded == ApplicableRequirements(options, fileFinder, environment);
      result := requirements.Result();
    }

    method Extractable() returns (result: DetectableResult)
      modifies this
      ensures bashExe == resolvedBash
      ensures foundBuildEnvScript == old(foundBuildEnvScript)
      ensures result == verdict([ExecutableRequirement(BashExecutableName, resolvedBash)])
    {
      var requirements := new Requirements(fileFinder, environment, verdict);
      bashExe := requirements.RequireExecutable(resolvedBash, BashExecutableName);
      assert requirements.recorded == [ExecutableRequirement(BashExecutableName, resolvedBash)];
      result := requirements.Result();
    }

    method Extract() returns (extraction: Extraction)
      ensures extraction == extractor(BitbakeExtraction(environment.directory, foundBuildEnvScript,
                                                        options.sourceArguments, options.packageNames,
                                                        options.searchDepth, bashExe))
    {
      extraction := extractor(BitbakeExtraction(environment.directory, foundBuildEnvScript,
                                                options.sourceArguments, options.packageNames,
                                                options.searchDepth, bashExe));
    }
  }

  /** The three phases in order: the extractor receives the script found by `applicable`
      and the bash resolved by `extractable`. */
  method RunLifecycle(detectable: BitbakeDetectable)
    returns (applicable: DetectableResult, extractable: DetectableResult, extraction: Extraction)
    modifies detectable
    ensures applicable == ApplicableVerdict(detectable.options, detectable.fileFinder, detectable.environment, detectable.verdict)
    ensures extractable == detectable.verdict([ExecutableRequirement(BashExecutableName, detectable.resolvedBash)])
    ensures extraction == detectable.extractor(BitbakeExtraction(
      detectable.environment.directory,
      detectable.fileFinder.findFile(Some(detectable.environment.directory), detectable.options.buildEnvName),
      detectable.options.sourceArguments, detectable.options.packageNames, detectable.options.searchDepth,
      detectable.resolvedBash))
  {
    applicable := detectable.Applicable();
    extractable := detectable.Extractable();
    extraction := detectable.Extract();
  }
}
