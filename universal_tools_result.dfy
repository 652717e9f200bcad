/** The success/failure envelope of the universal (code-location) tools, carrying the
    project name and version decided after they ran (UniversalToolsResult). */
module UniversalTools {
  import opened Common

  /** The two result types: FAILED and SUCCESS. */
  datatype UniversalToolsResultType = Failed | Succeeded

  datatype UniversalToolsResult = UniversalToolsResult(resultType: UniversalToolsResultType, nameVersion: NameVersion)
  {
    predicate AnyFailed() {
      resultType == Failed
    }

    function GetNameVersion(): NameVersion {
      nameVersion
    }
  }

  /** The static factory `failure(nameVersion)`. */
  function Failure(nameVersion: NameVersion): (r: UniversalToolsResult)
    ensures r.AnyFailed()
    ensures r.GetNameVersion() == nameVersion
  {
    UniversalToolsResult(Failed, nameVersion)
  }

  /** The static factory `success(nameVersion)`. */
  function Success(nameVersion: NameVersion): (r: UniversalToolsResult)
    ensures !r.AnyFailed()
    ensures r.GetNameVersion() == nameVersion
  {
    UniversalToolsResult(Succeeded, nameVersion)
  }

  /** Every result is one of the two factories' results, and which one is read off
      `AnyFailed` alone. */
  lemma ResultIsOneOfTheFactories(r: UniversalToolsResult)
    ensures r.AnyFailed() ==> r == Failure(r.GetNameVersion())
    ensures !r.AnyFailed() ==> r == Success(r.GetNameVersion())
  {
  }

  /** The factories are distinguished by `AnyFailed`, whatever the name and version. */
  lemma FactoriesDiffer(a: NameVersion, b: NameVersion)
    ensures Failure(a) != Success(b)
  {
  }
}
