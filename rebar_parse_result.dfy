/** The outcome of parsing a rebar (Erlang) project (RebarParseResult): the code
    location that was built, and the project's name and version when the parser found
    them. Both fields are fixed at construction. */
module Rebar {
  import opened Common

  /** A code location (the dependency graph of one project), left opaque. */
  datatype CodeLocation = CodeLocation(sourcePath: string)

  datatype RebarParseResult = RebarParseResult(projectNameVersion: Option<NameVersion>, codeLocation: CodeLocation)
  {
    function GetProjectNameVersion(): Option<NameVersion> { projectNameVersion }
    function GetCodeLocation(): CodeLocation { codeLocation }
  }

  /** The two-argument constructor. `Optional.of` rejects null; a Dafny `NameVersion`
      is never null, so that precondition holds by typing. */
  function WithProject(projectNameVersion: NameVersion, codeLocation: CodeLocation): (r: RebarParseResult)
    ensures r.GetProjectNameVersion() == Some(projectNameVersion)
    ensures r.GetCodeLocation() == codeLocation
  {
    RebarParseResult(Some(projectNameVersion), codeLocation)
  }

  /** The one-argument constructor: no project name and version. */
  function WithoutProject(codeLocation: CodeLocation): (r: RebarParseResult)
    ensures r.GetProjectNameVersion() == None
    ensures r.GetCodeLocation() == codeLocation
  {
    RebarParseResult(None, codeLocation)
  }

  /** Every result comes from one of the two constructors, told apart by whether a
      name-version is present, and each constructor's result determines its arguments. */
  lemma ConstructorsCoverAndDetermine(r: RebarParseResult)
    ensures r.GetProjectNameVersion().Some? ==>
      r == WithProject(r.GetProjectNameVersion().value, r.GetCodeLocation())
    ensures r.GetProjectNameVersion() == None ==> r == WithoutProject(r.GetCodeLocation())
  {
  }

  lemma WithProjectInjective(a: NameVersion, b: NameVersion, c: CodeLocation, d: CodeLocation)
    requires WithProject(a, c) == WithProject(b, d)
    ensures a == b && c == d
  {
  }
}
