/** The legacy Maven strategy for `pom.groovy` projects (MavenPomStrategy): applicable
    when the wrapper file exists, extractable when a Maven executable is found, which
    is stored in the shared Maven CLI context either way. */
module MavenPom {
  import opened Common
  import opened Detectables

  const PomWrapperFileName: string := "pom.groovy"
  const MavenExecutableName: string := "mvn"

  /** The verdict of `applicable`, given what the file finder returns for pom.groovy in
      the environment's directory. */
  function Applicable(pom: Option<File>): (result: DetectableResult)
    ensures result == FileNotFound(PomWrapperFileName) <==> pom == None
    ensures result == Passed <==> pom.Some?
  {
    if pom == None then FileNotFound(PomWrapperFileName) else Passed
  }

  /** The verdict of `extractable`, given what the Maven executable finder returned. */
  function ExtractableVerdict(mavenExe: Option<string>): (result: DetectableResult)
    ensures result == ExecutableNotFound(MavenExecutableName) <==> mavenExe == None
    ensures result == Passed <==> mavenExe.Some?
  {
    if mavenExe == None then ExecutableNotFound(MavenExecutableName) else Passed
  }

  /** Each verdict either passes or names exactly the one thing its phase looks for. */
  lemma VerdictsNameWhatIsMissing(pom: Option<File>, mavenExe: Option<string>)
    ensures Applicable(pom) in {Passed, FileNotFound("pom.groovy")}
    ensures ExtractableVerdict(mavenExe) in {Passed, ExecutableNotFound("mvn")}
  {
  }

  /** MavenCliContext: the state shared between the strategy's phases and its extractor. */
  class MavenCliContext {
    var mavenExe: Option<string>

    constructor ()
      ensures mavenExe == None
    {
      mavenExe := None;
    }
  }

  class MavenPomStrategy {
    /** The file finder's lookup of a file name in the environment's directory. */
    const findFile: string -> Option<File>
    /** What the Maven executable finder answers for the environment. */
    const findMaven: Option<string>

    constructor (findFile: string -> Option<File>, findMaven: Option<string>)
      ensures this.findFile == findFile && this.findMaven == findMaven
    {
      this.findFile := findFile;
      this.findMaven := findMaven;
    }

    method ApplicableIn() returns (result: DetectableResult)
      ensures result == Applicable(findFile(PomWrapperFileName))
    {
      var pom := findFile(PomWrapperFileName);
      if pom == None {
        return FileNotFound(PomWrapperFileName);
      }
      return Passed;
    }

    /** Stores the finder's answer in the context, even when it found nothing. */
    method Extractable(context: MavenCliContext) returns (result: DetectableResult)
      modifies context
      ensures context.mavenExe == findMaven
      ensures result == ExtractableVerdict(findMaven)
    {
      context.mavenExe := findMaven;
      if context.mavenExe == None {
        return ExecutableNotFound(MavenExecutableName);
      }
      return Passed;
    }
  }
}
