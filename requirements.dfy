/** The shared vocabulary of detectables: the verdict of a lifecycle phase
    (DetectableResult) and the Requirements accumulator a phase fills in.

    How Requirements turns what it was asked into a verdict belongs to a class that is
    not part of this model; it is the abstract `verdict` of the accumulator, applied to
    the log of everything the phase asked for and what each lookup found. */
module Detectables {
  import opened Common

  /** A file on disk, identified by its path. */
  datatype File = File(path: string)

  /** A resolved executable. */
  datatype ExecutableTarget = ExecutableTarget(path: string)

  /** The verdict of `applicable` or `extractable`. The legacy strategies' StrategyResult
      has the same kinds and uses this type too. */
  datatype DetectableResult =
    | Passed
    | FileNotFound(fileName: string)
    | ExecutableNotFound(executableName: string)
    | PropertyInsufficient(message: string)

  /** What an extractor produced, left opaque. */
  datatype Extraction = Extraction(summary: string)

  /** Why a requirement was met, recorded for the diagnostics. */
  datatype Explanation = PropertyProvided(propertyName: string)

  /** One request made of a Requirements accumulator, with its answer. */
  datatype Requirement =
    | FileRequirement(directory: Option<File>, fileName: string, found: Option<File>)
    | ExecutableRequirement(executableName: string, resolved: Option<ExecutableTarget>)
    | Explained(explanation: Explanation)

  /** The file finder: what it finds under a name in a directory (which may be null). */
  datatype FileFinder = FileFinder(findFile: (Option<File>, string) -> Option<File>)

  /** The environment of a detectable, reduced to the directory it looks at. */
  datatype DetectableEnvironment = DetectableEnvironment(directory: File)

  class Requirements {
    const fileFinder: FileFinder
    const environment: DetectableEnvironment
    const verdict: seq<Requirement> -> DetectableResult
    var recorded: seq<Requirement>

    constructor (fileFinder: FileFinder, environment: DetectableEnvironment,
                 verdict: seq<Requirement> -> DetectableResult)
      ensures this.fileFinder == fileFinder && this.environment == environment && this.verdict == verdict
      ensures recorded == []
    {
      this.fileFinder := fileFinder;
      this.environment := environment;
      this.verdict := verdict;
      recorded := [];
    }

    /** Requires a file in the environment's directory. */
    method RequireFile(fileName: string) returns (found: Option<File>)
      modifies this
      ensures found == fileFinder.findFile(Some(environment.directory), fileName)
      ensures recorded == old(recorded) + [FileRequirement(Some(environment.directory), fileName, found)]
    {
      found := fileFinder.findFile(Some(environment.directory), fileName);
      recorded := recorded + [FileRequirement(Some(environment.directory), fileName, found)];
    }

    /** Requires a file in a given directory, which may itself be missing. */
    method RequireFileIn(directory: Option<File>, fileName: string) returns (found: Option<File>)
      modifies this
      ensures found == fileFinder.findFile(directory, fileName)
      ensures recorded == old(recorded) + [FileRequirement(directory, fileName, found)]
    {
      found := fileFinder.findFile(directory, fileName);
      recorded := recorded + [FileRequirement(directory, fileName, found)];
    }

    /** Requires an executable, given what its resolver answers. */
    method RequireExecutable(resolved: Option<ExecutableTarget>, executableName: string)
      returns (executable: Option<ExecutableTarget>)
      modifies this
      ensures executable == resolved
      ensures recorded == old(recorded) + [ExecutableRequirement(executableName, resolved)]
    {
      executable := resolved;
      recorded := recorded + [ExecutableRequirement(executableName, resolved)];
    }

    method Explain(explanation: Explanation)
      modifies this
      ensures recorded == old(recorded) + [Explained(explanation)]
    {
      recorded := recorded + [Explained(explanation)];
    }

    function Result(): DetectableResult
      reads this
    {
      verdict(recorded)
    }
  }
}
