/** The FILTER step of the Bazel output pipeline (StepExecutorFilter): of the lines a
    previous step produced, keep, in order and unchanged, those that match one of the
    step's patterns.

    Regular expressions are an abstract `matches(pattern, line)`. For patterns of the shape
    `.*literal.*`, which is all the pipeline's test uses, `WrappedLiteralMatches` gives the
    meaning for a line that holds no line terminator (Java's `.` does not match one): the
    line contains the literal. A step with no patterns keeps no line. */
module BazelFilter {
  import opened Sequences

  datatype StepType = Filter | Extract

  /** A pipeline step: its kind and its ordered list of patterns. */
  datatype Step = Step(stepType: StepType, patterns: seq<string>)

  /** Which step kinds the filter executor handles. */
  function Applies(stepType: StepType): (r: bool)
    ensures r <==> stepType == Filter
  {
    stepType == Filter
  }

  predicate MatchesAny(patterns: seq<string>, line: string, matches: (string, string) -> bool) {
    exists i :: 0 <= i < |patterns| && matches(patterns[i], line)
  }

  /** The filter executor's `process`: the input lines matching at least one pattern. */
  function Process(step: Step, input: seq<string>, matches: (string, string) -> bool): (output: seq<string>)
    ensures IsSubsequence(output, input)
    ensures forall line :: line in output <==> line in input && MatchesAny(step.patterns, line, matches)
    ensures |output| <= |input|
  {
    if input == [] then []
    else
      var rest := Process(step, input[1..], matches);
      if MatchesAny(step.patterns, input[0], matches) then [input[0]] + rest else rest
  }

  /** Lines that match are kept unchanged and in input order, and lines that match no
      pattern are dropped: when every line matches the output is the input, and when
      none does it is empty. */
  lemma {:induction false} ProcessKeepsOrDropsWholeLines(step: Step, input: seq<string>, matches: (string, string) -> bool)
    ensures (forall i :: 0 <= i < |input| ==> MatchesAny(step.patterns, input[i], matches)) ==>
              Process(step, input, matches) == input
    ensures (forall i :: 0 <= i < |input| ==> !MatchesAny(step.patterns, input[i], matches)) ==>
              Process(step, input, matches) == []
  {
    if input != [] {
      ProcessKeepsOrDropsWholeLines(step, input[1..], matches);
      if forall i :: 0 <= i < |input| ==> MatchesAny(step.patterns, input[i], matches) {
        assert forall i :: 0 <= i < |input[1..]| ==> MatchesAny(step.patterns, input[1..][i], matches) by {
          forall i | 0 <= i < |input[1..]| ensures MatchesAny(step.patterns, input[1..][i], matches) {
            assert input[1..][i] == input[i + 1];
          }
        }
      }
      if forall i :: 0 <= i < |input| ==> !MatchesAny(step.patterns, input[i], matches) {
        assert forall i :: 0 <= i < |input[1..]| ==> !MatchesAny(step.patterns, input[1..][i], matches) by {
          forall i | 0 <= i < |input[1..]| ensures !MatchesAny(step.patterns, input[1..][i], matches) {
            assert input[1..][i] == input[i + 1];
          }
        }
      }
    }
  }

  /** Filtering twice with the same step filters once. */
  lemma {:induction false} ProcessIdempotent(step: Step, input: seq<string>, matches: (string, string) -> bool)
    ensures Process(step, Process(step, input, matches), matches) == Process(step, input, matches)
  {
    if input != [] {
      ProcessIdempotent(step, input[1..], matches);
    }
  }

  /** Filtering with a concatenation of lines filters each part. */
  lemma {:induction false} ProcessConcat(step: Step, a: seq<string>, b: seq<string>, matches: (string, string) -> bool)
    ensures Process(step, a + b, matches) == Process(step, a, matches) + Process(step, b, matches)
  {
    if a == [] {
      assert a + b == b;
    } else {
      assert (a + b)[1..] == a[1..] + b;
      ProcessConcat(step, a[1..], b, matches);
    }
  }

  /** `s` occurs in `line` at some position. */
  predicate Contains(line: string, s: string) {
    exists i :: 0 <= i <= |line| && s <= line[i..]
  }

  /** The meaning of a `.*literal.*` pattern, where the literal holds no regular-expression
      metacharacter: the line contains the literal. Other patterns are not given a meaning
      here and match nothing. */
  predicate WrappedLiteralMatches(pattern: string, line: string) {
    && |pattern| >= 4
    && pattern[..2] == ".*" && pattern[|pattern| - 2..] == ".*"
    && Contains(line, pattern[2..|pattern| - 2])
  }

  /** A line lacking one of the literal's characters cannot contain it. */
  lemma NotContainsMissingChar(line: string, s: string, c: char)
    requires c in s && c !in line
    ensures !Contains(line, s)
  {
  }

  const NameLine: string := "  name = \"com_google_code_findbugs_jsr305\","
  const MavenCoordinatesLiteral: string := "maven_coordinates="
  /** The tags line, written around the literal it is filtered for. */
  const TagsLine: string := "  tags = [\"" + MavenCoordinatesLiteral + "com.google.code.findbugs:jsr305:3.0.2\"],"
  const MavenCoordinatesPattern: string := ".*maven_coordinates=.*"

  /** The tags line matches the pattern. */
  lemma TagsLineMatches()
    ensures WrappedLiteralMatches(MavenCoordinatesPattern, TagsLine)
  {
    var literal := MavenCoordinatesPattern[2..|MavenCoordinatesPattern| - 2];
    assert literal == MavenCoordinatesLiteral;
    var before, after := "  tags = [\"", "com.google.code.findbugs:jsr305:3.0.2\"],";
    assert TagsLine == before + literal + after;
    assert TagsLine[|before|..] == literal + after;
  }

  /** The name line does not: it has no 'v', which the literal has. */
  lemma NameLineDoesNotMatch()
    ensures !WrappedLiteralMatches(MavenCoordinatesPattern, NameLine)
  {
    var literal := MavenCoordinatesPattern[2..|MavenCoordinatesPattern| - 2];
    assert literal == MavenCoordinatesLiteral;
    assert literal[2] == 'v';
    assert 'v' !in NameLine;
    NotContainsMissingChar(NameLine, literal, 'v');
  }

  /** The pipeline's test case: the filter executor claims FILTER steps, and filtering the
      name line and the tags line by `.*maven_coordinates=.*` keeps exactly the tags line. */
  lemma FilterKeepsMavenCoordinates()
    ensures Applies(Filter)
    ensures Process(Step(Filter, [MavenCoordinatesPattern]), [NameLine, TagsLine], WrappedLiteralMatches) == [TagsLine]
  {
    var step := Step(Filter, [MavenCoordinatesPattern]);
    TagsLineMatches();
    NameLineDoesNotMatch();
    assert MatchesAny(step.patterns, TagsLine, WrappedLiteralMatches) by {
      assert step.patterns[0] == MavenCoordinatesPattern;
    }
    assert !MatchesAny(step.patterns, NameLine, WrappedLiteralMatches);
    assert [NameLine, TagsLine][1..] == [TagsLine];
    assert [TagsLine][1..] == [];
  }
}
