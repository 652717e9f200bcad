/** The Go vendor detectable: applicable when `vendor/vendor.json` exists under the
    environment's directory, always extractable, and extracted from the vendor.json
    found while deciding applicability. */
module GoVendor {
  import opened Common
  import opened Detectables

  const VendorJsonDirName: string := "vendor"
  const VendorJsonFileName: string := "vendor.json"

  /** What `applicable` asks of its Requirements, in order: the vendor directory, then
      vendor.json inside whatever that lookup found. */
  function ApplicableRequirements(fileFinder: FileFinder, environment: DetectableEnvironment): seq<Requirement> {
    var vendorDir := fileFinder.findFile(Some(environment.directory), VendorJsonDirName);
    [FileRequirement(Some(environment.directory), VendorJsonDirName, vendorDir),
     FileRequirement(vendorDir, VendorJsonFileName, fileFinder.findFile(vendorDir, VendorJsonFileName))]
  }

  /** The vendor.json that `applicable` finds. */
  function FoundVendorJson(fileFinder: FileFinder, environment: DetectableEnvironment): Option<File> {
    fileFinder.findFile(fileFinder.findFile(Some(environment.directory), VendorJsonDirName), VendorJsonFileName)
  }

  /** "vendor" is required in the environment's directory first, then "vendor.json" in the
      directory that lookup returned; the file stored is the answer to the second lookup. */
  lemma VendorJsonInsideVendorDir(fileFinder: FileFinder, environment: DetectableEnvironment)
    ensures var requirements := ApplicableRequirements(fileFinder, environment);
      && |requirements| == 2
      && requirements[0].FileRequirement? && requirements[0].fileName == VendorJsonDirName
      && requirements[0].directory == Some(environment.directory)
      && requirements[1].FileRequirement? && requirements[1].fileName == VendorJsonFileName
      && requirements[1].directory == requirements[0].found
      && requirements[1].found == FoundVendorJson(fileFinder, environment)
  {
  }

  class GoVendorDetectable {
    const environment: DetectableEnvironment
    const fileFinder: FileFinder
    const verdict: seq<Requirement> -> DetectableResult
    /** The Go vendor extractor, applied to the vendor.json file. */
    const extractor: Option<File> -> Extraction

    var vendorJson: Option<File>

    constructor (environment: DetectableEnvironment, fileFinder: FileFinder,
                 verdict: seq<Requirement> -> DetectableResult, extractor: Option<File> -> Extraction)
      ensures this.environment == environment && this.fileFinder == fileFinder
      ensures this.verdict == verdict && this.extractor == extractor
      ensures vendorJson == None
    {
      this.environment := environment;
      this.fileFinder := fileFinder;
      this.verdict := verdict;
      this.extractor := extractor;
      vendorJson := None;
    }

    method Applicable() returns (result: DetectableResult)
      modifies this
      ensures vendorJson == FoundVendorJson(fileFinder, environment)
      ensures result == verdict(ApplicableRequirements(fileFinder, environment))
    {
      var requirements := new Requirements(fileFinder, environment, verdict);
      var vendorDir := requirements.RequireFile(VendorJsonDirName);
      vendorJson := requirements.RequireFileIn(vendorDir, VendorJsonFileName);
      assert requirements.recorded == ApplicableRequirements(fileFinder, environment);
      result := requirements.Result();
    }

    method Extractable() returns (result: DetectableResult)
      ensures result == Passed
    {
      result := Passed;
    }

    method Extract() returns (extraction: Extraction)
      ensures extraction == extractor(vendorJson)
    {
      extraction := extractor(vendorJson);
    }
  }

  /** The three phases in order: the extractor receives the vendor.json found by `applicable`. */
  method RunLifecycle(detectable: GoVendorDetectable)
    returns (applicable: DetectableResult, extractable: DetectableResult, extraction: Extraction)
    modifies detectable
    ensures applicable == detectable.verdict(ApplicableRequirements(detectable.fileFinder, detectable.environment))
    ensures extractable == Passed
    ensures extraction == detectable.extractor(FoundVendorJson(detectable.fileFinder, detectable.environment))
  {
    applicable := detectable.Applicable();
    extractable := detectable.Extractable();
    extraction := detectable.Extract();
  }
}
