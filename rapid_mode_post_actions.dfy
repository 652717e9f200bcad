/** The post actions of a rapid (developer-mode) scan: for every component result,
    report the policy names not covered by a vulnerability or license violation,
    decide whether the component violates policy, collect the violating components
    in first-seen order, and request one policy-violation exit code when any did.

    The logger is an append-only log of lines; the escape function and the outcome
    of writing the JSON output file are inputs. */
module RapidMode {
  import opened Common
  import opened Sequences

  /** A policy violation found for a component. The vulnerability and the license
      violation views expose the same three accessors, and the post actions treat
      both alike. */
  datatype ViolationView = ViolationView(
    violatingPolicyNames: seq<string>,
    errorMessage: Option<string>,
    warningMessage: Option<string>)

  /** The rapid-scan result of one component (DeveloperScanComponentResultView). The
      two violation collections are Java sets whose iteration order is unspecified:
      their order here is the one iteration happens to use. */
  datatype ComponentResultView = ComponentResultView(
    componentName: string,
    versionName: string,
    violatingPolicyNames: seq<string>,
    policyViolationVulnerabilities: seq<ViolationView>,
    policyViolationLicenses: seq<ViolationView>)

  datatype LogLine =
    | PolicyRuleViolated(policyName: string, componentName: string, componentVersion: string)
    | ErrorLine(message: string)
    | WarningLine(message: string)

  class Logger {
    var lines: seq<LogLine>

    constructor ()
      ensures lines == []
    {
      lines := [];
    }

    method Log(newLines: seq<LogLine>)
      modifies this
      ensures lines == old(lines) + newLines
    {
      lines := lines + newLines;
    }
  }

  // ---------------------------------------------------------------------------
  // Blank strings

  /** Java's Character.isWhitespace: the space separators other than the no-break
      spaces, the line and paragraph separators, and the ASCII control characters
      tab through carriage return and file through unit separator. */
  predicate IsWhitespace(c: char) {
    var n := c as int;
    (0x09 <= n <= 0x0D) || (0x1C <= n <= 0x20) || n == 0x1680
    || (0x2000 <= n <= 0x2006) || (0x2008 <= n <= 0x200A)
    || n == 0x2028 || n == 0x2029 || n == 0x205F || n == 0x3000
  }

  /** StringUtils.isNotBlank: not null and holding a non-whitespace character. */
  predicate IsNotBlank(s: Option<string>) {
    s.Some? && exists i :: 0 <= i < |s.value| && !IsWhitespace(s.value[i])
  }

  // ---------------------------------------------------------------------------
  // Violations of one component

  /** The union of the violating policy names of the given violations (the stream
      flattened into a set). */
  function PolicyNamesOf(views: seq<ViolationView>): set<string> {
    set i, name | 0 <= i < |views| && name in views[i].violatingPolicyNames :: name
  }

  predicate HasErrorMessage(views: seq<ViolationView>) {
    exists i :: 0 <= i < |views| && IsNotBlank(views[i].errorMessage)
  }

  /** What checking one violation logs: its error message, then its warning message,
      each only when it is not blank. */
  function ViolationLogLines(view: ViolationView): seq<LogLine> {
    (if IsNotBlank(view.errorMessage) then [ErrorLine(view.errorMessage.value)] else [])
    + (if IsNotBlank(view.warningMessage) then [WarningLine(view.warningMessage.value)] else [])
  }

  function ViolationsLog(views: seq<ViolationView>): seq<LogLine> {
    if views == [] then []
    else ViolationsLog(views[..|views| - 1]) + ViolationLogLines(views[|views| - 1])
  }

  /** checkVulnerabilityErrorsAndLog and checkLicenseErrorsAndLog: whether some
      violation has a non-blank error message, and the lines logged on the way. */
  method CheckErrorsAndLog(views: seq<ViolationView>) returns (hasErrors: bool, logged: seq<LogLine>)
    ensures hasErrors <==> HasErrorMessage(views)
    ensures logged == ViolationsLog(views)
  {
    hasErrors := false;
    logged := [];
    for i := 0 to |views|
      invariant hasErrors <==> HasErrorMessage(views[..i])
      invariant logged == ViolationsLog(views[..i])
    {
      var view := views[i];
      var hasError := IsNotBlank(view.errorMessage);
      var hasWarning := IsNotBlank(view.warningMessage);
      if hasError {
        logged := logged + [ErrorLine(view.errorMessage.value)];
        hasErrors := true;
      }
      if hasWarning {
        logged := logged + [WarningLine(view.warningMessage.value)];
      }
      assert views[..i + 1][..i] == views[..i];
      assert HasErrorMessage(views[..i + 1]) <==> HasErrorMessage(views[..i]) || hasError by {
        assert forall k :: 0 <= k < i ==> views[..i + 1][k] == views[..i][k];
        assert views[..i + 1][i] == view;
      }
    }
    assert views[..|views|] == views;
  }

  /** Warning messages never decide whether a component has errors. */
  lemma ErrorsIgnoreWarnings(views: seq<ViolationView>, others: seq<ViolationView>)
    requires |views| == |others|
    requires forall i :: 0 <= i < |views| ==> views[i].errorMessage == others[i].errorMessage
    ensures HasErrorMessage(views) <==> HasErrorMessage(others)
  {
    if HasErrorMessage(views) {
      var i :| 0 <= i < |views| && IsNotBlank(views[i].errorMessage);
      assert IsNotBlank(others[i].errorMessage);
    }
    if HasErrorMessage(others) {
      var i :| 0 <= i < |others| && IsNotBlank(others[i].errorMessage);
      assert IsNotBlank(views[i].errorMessage);
    }
  }

  predicate HasErrorLine(lines: seq<LogLine>) {
    exists k :: 0 <= k < |lines| && lines[k].ErrorLine?
  }

  lemma HasErrorLineConcat(a: seq<LogLine>, b: seq<LogLine>)
    ensures HasErrorLine(a + b) <==> HasErrorLine(a) || HasErrorLine(b)
  {
    if HasErrorLine(a + b) {
      var k :| 0 <= k < |a + b| && (a + b)[k].ErrorLine?;
      if k < |a| {
        assert a[k].ErrorLine?;
      } else {
        assert b[k - |a|].ErrorLine?;
      }
    }
    if HasErrorLine(a) {
      var k :| 0 <= k < |a| && a[k].ErrorLine?;
      assert (a + b)[k].ErrorLine?;
    }
    if HasErrorLine(b) {
      var k :| 0 <= k < |b| && b[k].ErrorLine?;
      assert (a + b)[|a| + k].ErrorLine?;
    }
  }

  /** Some error line is logged exactly when some violation has an error message. */
  lemma {:induction false} ErrorLoggedIffHasErrorMessage(views: seq<ViolationView>)
    ensures HasErrorLine(ViolationsLog(views)) <==> HasErrorMessage(views)
  {
    if views != [] {
      var prefix, last := views[..|views| - 1], views[|views| - 1];
      ErrorLoggedIffHasErrorMessage(prefix);
      var lines := ViolationLogLines(last);
      HasErrorLineConcat(ViolationsLog(prefix), lines);
      assert HasErrorLine(lines) <==> IsNotBlank(last.errorMessage) by {
        if IsNotBlank(last.errorMessage) {
          assert lines[0].ErrorLine?;
        }
      }
      assert HasErrorMessage(views) <==> HasErrorMessage(prefix) || IsNotBlank(last.errorMessage) by {
        if HasErrorMessage(views) {
          var i :| 0 <= i < |views| && IsNotBlank(views[i].errorMessage);
          if i < |prefix| {
            assert prefix[i] == views[i];
          }
        }
        if HasErrorMessage(prefix) {
          var i :| 0 <= i < |prefix| && IsNotBlank(prefix[i].errorMessage);
          assert views[i] == prefix[i];
        }
      }
    }
  }

  /** The policy names printed for a component: its violating policy names, first
      occurrence first, without those of its vulnerability and license violations. */
  function PrintedPolicyNames(result: ComponentResultView): (names: seq<string>)
    ensures forall name :: name in names <==>
      && name in result.violatingPolicyNames
      && name !in PolicyNamesOf(result.policyViolationVulnerabilities)
      && name !in PolicyNamesOf(result.policyViolationLicenses)
    ensures NoDuplicates(names)
  {
    DistinctMembers(result.violatingPolicyNames);
    DistinctNoDuplicates(result.violatingPolicyNames);
    var policyNames := Distinct(result.violatingPolicyNames);
    var withoutVulnerabilities := RemoveAll(policyNames, PolicyNamesOf(result.policyViolationVulnerabilities));
    RemoveAll(withoutVulnerabilities, PolicyNamesOf(result.policyViolationLicenses))
  }

  /** The printed names keep the order in which they first occur among the
      component's violating policy names. */
  lemma PrintedPolicyNamesKeepOrder(result: ComponentResultView)
    ensures IsSubsequence(PrintedPolicyNames(result), Distinct(result.violatingPolicyNames))
  {
    var policyNames := Distinct(result.violatingPolicyNames);
    var withoutVulnerabilities := RemoveAll(policyNames, PolicyNamesOf(result.policyViolationVulnerabilities));
    SubsequenceTransitive(PrintedPolicyNames(result), withoutVulnerabilities, policyNames);
  }

  /** A component violates policy when its vulnerability violations name a policy and
      one of them carries an error, or likewise for its license violations. */
  predicate ComponentViolates(result: ComponentResultView) {
    || (PolicyNamesOf(result.policyViolationVulnerabilities) != {} && HasErrorMessage(result.policyViolationVulnerabilities))
    || (PolicyNamesOf(result.policyViolationLicenses) != {} && HasErrorMessage(result.policyViolationLicenses))
  }

  /** One info line per printed policy name. */
  function PolicyRuleLines(names: seq<string>, componentName: string, componentVersion: string): seq<LogLine> {
    seq(|names|, k requires 0 <= k < |names| => PolicyRuleViolated(names[k], componentName, componentVersion))
  }

  /** What checking one violation collection logs: nothing unless it names some policy. */
  function CheckedViolationsLog(views: seq<ViolationView>): seq<LogLine> {
    if PolicyNamesOf(views) != {} then ViolationsLog(views) else []
  }

  /** Everything logged for one component: its printed policy names, then the checks
      of its vulnerability and of its license violations. */
  function ComponentLog(result: ComponentResultView): seq<LogLine> {
    PolicyRuleLines(PrintedPolicyNames(result), result.componentName, result.versionName)
    + CheckedViolationsLog(result.policyViolationVulnerabilities)
    + CheckedViolationsLog(result.policyViolationLicenses)
  }

  function PerformLog(results: seq<ComponentResultView>): seq<LogLine> {
    if results == [] then []
    else PerformLog(results[..|results| - 1]) + ComponentLog(results[|results| - 1])
  }

  /** The names of the violating components, in result order, repetitions kept. */
  function ViolatingComponentNames(results: seq<ComponentResultView>): seq<string> {
    if results == [] then []
    else
      var last := results[|results| - 1];
      ViolatingComponentNames(results[..|results| - 1]) + (if ComponentViolates(last) then [last.componentName] else [])
  }

  /** The contents of the violated-component LinkedHashSet once all results are seen. */
  function ViolatedComponents(results: seq<ComponentResultView>): seq<string> {
    Distinct(ViolatingComponentNames(results))
  }

  /** Some result of the given name violates policy. */
  predicate SomeComponentViolates(results: seq<ComponentResultView>, name: string) {
    exists i :: 0 <= i < |results| && results[i].componentName == name && ComponentViolates(results[i])
  }

  /** Looking at one more result adds that result's name when it violates. */
  lemma SomeComponentViolatesSnoc(results: seq<ComponentResultView>, name: string)
    requires results != []
    ensures SomeComponentViolates(results, name) <==>
      SomeComponentViolates(results[..|results| - 1], name) ||
      (results[|results| - 1].componentName == name && ComponentViolates(results[|results| - 1]))
  {
    var prefix := results[..|results| - 1];
    if SomeComponentViolates(prefix, name) {
      var i :| 0 <= i < |prefix| && prefix[i].componentName == name && ComponentViolates(prefix[i]);
      assert results[i] == prefix[i];
    }
    if SomeComponentViolates(results, name) {
      var i :| 0 <= i < |results| && results[i].componentName == name && ComponentViolates(results[i]);
      if i < |prefix| {
        assert prefix[i] == results[i];
      }
    }
  }

  lemma {:induction false} ViolatingComponentNamesMember(results: seq<ComponentResultView>, name: string)
    ensures name in ViolatingComponentNames(results) <==> SomeComponentViolates(results, name)
  {
    if results != [] {
      ViolatingComponentNamesMember(results[..|results| - 1], name);
      SomeComponentViolatesSnoc(results, name);
    }
  }

  lemma ViolatingComponentNamesMembers(results: seq<ComponentResultView>)
    ensures forall name :: name in ViolatingComponentNames(results) <==> SomeComponentViolates(results, name)
  {
    forall name
      ensures name in ViolatingComponentNames(results) <==> SomeComponentViolates(results, name)
    {
      ViolatingComponentNamesMember(results, name);
    }
  }

  /** A component name is in the violated set iff some result of that name violates policy. */
  lemma ViolatedComponentsMembers(results: seq<ComponentResultView>)
    ensures forall name :: name in ViolatedComponents(results) <==>
      exists i :: 0 <= i < |results| && results[i].componentName == name && ComponentViolates(results[i])
  {
    DistinctMembers(ViolatingComponentNames(results));
    ViolatingComponentNamesMembers(results);
  }

  /** The violated set holds no name twice, and keeps the order in which the
      violating components first appear among the results. */
  lemma ViolatedComponentsOrder(results: seq<ComponentResultView>)
    ensures NoDuplicates(ViolatedComponents(results))
    ensures InFirstOccurrenceOrder(ViolatedComponents(results), ViolatingComponentNames(results))
  {
    DistinctNoDuplicates(ViolatingComponentNames(results));
    DistinctInFirstOccurrenceOrder(ViolatingComponentNames(results));
  }

  /** One more result seen: what the loop over results in `perform` adds to the log
      and to the violating names. */
  lemma PerformStep(results: seq<ComponentResultView>, i: nat)
    requires i < |results|
    ensures PerformLog(results[..i + 1]) == PerformLog(results[..i]) + ComponentLog(results[i])
    ensures var violated, name := ViolatedComponents(results[..i]), results[i].componentName;
      ViolatedComponents(results[..i + 1])
      == if ComponentViolates(results[i]) && name !in violated then violated + [name] else violated
  {
    assert results[..i + 1][..i] == results[..i];
    var names, name := ViolatingComponentNames(results[..i]), results[i].componentName;
    if ComponentViolates(results[i]) {
      assert ViolatingComponentNames(results[..i + 1]) == names + [name];
      DistinctSnoc(names, name);
    } else {
      assert ViolatingComponentNames(results[..i + 1]) == names + [];
      assert names + [] == names;
    }
  }

  // ---------------------------------------------------------------------------
  // The exit-code message

  function DigitChar(d: nat): char
    requires d < 10
  {
    "0123456789"[d]
  }

  predicate IsDigit(c: char) {
    '0' <= c <= '9'
  }

  /** The decimal text of a count, as `%d` formats it. */
  function DecimalText(n: nat): (s: string)
    ensures |s| >= 1
    ensures forall k :: 0 <= k < |s| ==> IsDigit(s[k])
  {
    if n < 10 then [DigitChar(n)] else DecimalText(n / 10) + [DigitChar(n % 10)]
  }

  /** The value of a digit string, read back. */
  function DecimalValue(s: string): nat
    requires forall k :: 0 <= k < |s| ==> IsDigit(s[k])
  {
    if s == [] then 0
    else
      assert IsDigit(s[|s| - 1]);
      DecimalValue(s[..|s| - 1]) * 10 + ((s[|s| - 1] as int) - ('0' as int))
  }

  /** Reading the formatted count back gives the count. */
  lemma {:induction false} DecimalTextRoundTrip(n: nat)
    ensures DecimalValue(DecimalText(n)) == n
  {
    var s := DecimalText(n);
    if n < 10 {
      assert s[..0] == [];
    } else {
      var prefix := DecimalText(n / 10);
      DecimalTextRoundTrip(n / 10);
      assert s == prefix + [DigitChar(n % 10)];
      assert s[..|s| - 1] == prefix;
    }
  }

  /** fixComponentPlural(" %d %s in violation", count). */
  function FixComponentPlural(count: nat): string {
    " " + DecimalText(count) + " " + (if count == 1 then "component" else "components") + " in violation"
  }

  /** createViolationMessage: the reason of the policy-violation exit code. */
  function CreateViolationMessage(count: nat): string {
    "Black Duck found:" + FixComponentPlural(count)
  }

  /** One violating component is reported in the singular. */
  lemma ViolationMessageSingular()
    ensures CreateViolationMessage(1) == "Black Duck found: 1 component in violation"
  {
  }

  /** Every other count is reported in the plural, and the count can be read back
      from the message. */
  lemma ViolationMessagePlural(count: nat)
    requires count != 1
    ensures var digits := DecimalText(count);
      && CreateViolationMessage(count) == "Black Duck found: " + digits + " components in violation"
      && CreateViolationMessage(count)[18..18 + |digits|] == digits
      && DecimalValue(digits) == count
  {
    DecimalTextRoundTrip(count);
  }

  // ---------------------------------------------------------------------------
  // The output file and the whole post action

  const ResultFileSuffix := "_BlackDuck_DeveloperMode_Result.json"

  /** The name of the JSON result file: the escaped project name and version, joined
      by an underscore, followed by the fixed suffix. */
  function JsonScanFileName(escape: string -> string, projectNameVersion: NameVersion): (fileName: string)
    ensures var name, version := escape(projectNameVersion.name), escape(projectNameVersion.version);
      && |fileName| == |name| + 1 + |version| + |ResultFileSuffix|
      && fileName[..|name|] == name
      && fileName[|name|] == '_'
      && fileName[|name| + 1..|name| + 1 + |version|] == version
      && fileName[|fileName| - |ResultFileSuffix|..] == ResultFileSuffix
  {
    var name, version := escape(projectNameVersion.name), escape(projectNameVersion.version);
    var fileName := name + "_" + version + ResultFileSuffix;
    assert fileName[|name| + 1..|name| + 1 + |version|] == version;
    fileName
  }

  /** The event `perform` publishes: one policy-violation exit code naming the number
      of violating components, or nothing. */
  function PolicyEvents(results: seq<ComponentResultView>): seq<Event> {
    var violated := ViolatedComponents(results);
    if violated == [] then []
    else [ExitCode(ExitCodeRequest(FailurePolicyViolation, CreateViolationMessage(|violated|)))]
  }

  /** Exactly one exit-code request is published iff some component violates policy,
      and its message counts the distinct violating component names. */
  lemma PolicyEventsIffViolation(results: seq<ComponentResultView>)
    ensures |PolicyEvents(results)| <= 1
    ensures PolicyEvents(results) != [] <==>
      exists i :: 0 <= i < |results| && ComponentViolates(results[i])
    ensures PolicyEvents(results) != [] ==>
      PolicyEvents(results)[0].request.exitCodeType == FailurePolicyViolation
      && PolicyEvents(results)[0].request.reason == CreateViolationMessage(|ViolatedComponents(results)|)
  {
    ViolatedComponentsMembers(results);
    var violated := ViolatedComponents(results);
    if exists i :: 0 <= i < |results| && ComponentViolates(results[i]) {
      var i :| 0 <= i < |results| && ComponentViolates(results[i]);
      assert results[i].componentName in violated;
    }
    if violated != [] {
      assert violated[0] in violated;
    }
  }

  datatype DetectUserFriendlyException = DetectUserFriendlyException(message: string, exitCodeType: ExitCodeType)

  datatype PerformOutcome = Performed | Thrown(exception: DetectUserFriendlyException)

  const OutputFileFailure := DetectUserFriendlyException("Cannot create rapid scan output file", FailureUnknownError)

  class RapidModePostActions {
    const eventSystem: EventSystem
    const logger: Logger
    /** IntegrationEscapeUtil.replaceWithUnderscore. */
    const escape: string -> string
    /** Whether writing the JSON result file of the given name into the scan output
        directory succeeds. */
    const writeSucceeds: string -> bool

    constructor (eventSystem: EventSystem, logger: Logger, escape: string -> string, writeSucceeds: string -> bool)
      ensures this.eventSystem == eventSystem && this.logger == logger
      ensures this.escape == escape && this.writeSucceeds == writeSucceeds
    {
      this.eventSystem := eventSystem;
      this.logger := logger;
      this.escape := escape;
      this.writeSucceeds := writeSucceeds;
    }

    /** generateJSONScanOutput, reduced to the file it writes and whether that worked. */
    method GenerateJsonScanOutput(projectNameVersion: NameVersion) returns (fileName: string, written: bool)
      ensures fileName == JsonScanFileName(escape, projectNameVersion)
      ensures written == writeSucceeds(fileName)
    {
      fileName := JsonScanFileName(escape, projectNameVersion);
      written := writeSucceeds(fileName);
    }

    /** The body of the loop over results in `perform`: logs what one component
        result shows and tells whether the component violates policy. */
    method ReportComponent(resultView: ComponentResultView) returns (violates: bool)
      modifies logger
      ensures violates == ComponentViolates(resultView)
      ensures logger.lines == old(logger.lines) + ComponentLog(resultView)
    {
      var vulnerabilityPolicyNames := PolicyNamesOf(resultView.policyViolationVulnerabilities);
      var licensePolicyNames := PolicyNamesOf(resultView.policyViolationLicenses);
      var policyNames := PrintedPolicyNames(resultView);
      var hasVulnerabilityErrors := false;
      var hasLicenseErrors := false;
      var policyLines := PolicyRuleLines(policyNames, resultView.componentName, resultView.versionName);
      if policyNames != [] {
        logger.Log(policyLines);
      } else {
        assert logger.lines == old(logger.lines) + policyLines;
      }
      ghost var vulnerabilityLines := CheckedViolationsLog(resultView.policyViolationVulnerabilities);
      ghost var licenseLines := CheckedViolationsLog(resultView.policyViolationLicenses);
      if vulnerabilityPolicyNames != {} {
        var logged;
        hasVulnerabilityErrors, logged := CheckErrorsAndLog(resultView.policyViolationVulnerabilities);
        logger.Log(logged);
      }
      assert logger.lines == old(logger.lines) + policyLines + vulnerabilityLines;
      ConcatAssociative(old(logger.lines), policyLines, vulnerabilityLines);
      if licensePolicyNames != {} {
        var logged;
        hasLicenseErrors, logged := CheckErrorsAndLog(resultView.policyViolationLicenses);
        logger.Log(logged);
      }
      assert logger.lines == old(logger.lines) + (policyLines + vulnerabilityLines) + licenseLines;
      ConcatAssociative(old(logger.lines), policyLines + vulnerabilityLines, licenseLines);
      violates := hasVulnerabilityErrors || hasLicenseErrors;
    }

    /** The loop over results in `perform`: logs every component result and collects
        the names of the violating components, each once, in first-seen order. */
    method ReportComponents(results: seq<ComponentResultView>) returns (violatedPolicyComponentNames: seq<string>)
      modifies logger
      ensures violatedPolicyComponentNames == ViolatedComponents(results)
      ensures logger.lines == old(logger.lines) + PerformLog(results)
    {
      violatedPolicyComponentNames := [];
      for i := 0 to |results|
        invariant violatedPolicyComponentNames == ViolatedComponents(results[..i])
        invariant logger.lines == old(logger.lines) + PerformLog(results[..i])
      {
        ghost var logged, componentLog := PerformLog(results[..i]), ComponentLog(results[i]);
        var violates := ReportComponent(results[i]);
        ConcatAssociative(old(logger.lines), logged, componentLog);
        PerformStep(results, i);
        if violates {
          if results[i].componentName !in violatedPolicyComponentNames {
            violatedPolicyComponentNames := violatedPolicyComponentNames + [results[i].componentName];
          }
        }
      }
      assert results[..|results|] == results;
    }

    method Perform(projectNameVersion: NameVersion, results: seq<ComponentResultView>) returns (outcome: PerformOutcome)
      modifies eventSystem, logger
      ensures writeSucceeds(JsonScanFileName(escape, projectNameVersion)) ==>
        && outcome == Performed
        && logger.lines == old(logger.lines) + PerformLog(results)
        && eventSystem.events == old(eventSystem.events) + PolicyEvents(results)
      ensures !writeSucceeds(JsonScanFileName(escape, projectNameVersion)) ==>
        && outcome == Thrown(OutputFileFailure)
        && logger.lines == old(logger.lines)
        && eventSystem.events == old(eventSystem.events)
    {
      var violatedPolicyComponentNames: seq<string> := [];
      var fileName, written := GenerateJsonScanOutput(projectNameVersion);
      if !written {
        return Thrown(OutputFileFailure);
      }
      violatedPolicyComponentNames := ReportComponents(results);
      if violatedPolicyComponentNames != [] {
        eventSystem.PublishEvent(ExitCode(ExitCodeRequest(FailurePolicyViolation, CreateViolationMessage(|violatedPolicyComponentNames|))));
      }
      outcome := Performed;
    }
  }
}
