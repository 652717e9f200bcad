/** Yarn lock entries (YarnLockEntry), the builder that accumulates one while its block
    is read, and the element parser for a `key value` line of an entry's body.

    The parser accepts four surface forms of a key/value line: `key value`,
    `key "value"`, `key: value` and `key: "value"`, each indented. The line is trimmed
    as Java's String.trim does, the key runs up to the first space or colon, one colon
    after the key is dropped, and the rest is trimmed and unquoted. */
module YarnLock {
  import opened Common

  datatype YarnLockEntryId = YarnLockEntryId(name: string, version: string)

  datatype YarnLockDependency = YarnLockDependency(name: string, version: string, optional: bool)

  /** An immutable lock entry: all three fields are fixed by the constructor. */
  datatype YarnLockEntry = YarnLockEntry(ids: seq<YarnLockEntryId>, version: string, dependencies: seq<YarnLockDependency>)
  {
    function GetIds(): seq<YarnLockEntryId> { ids }
    function GetVersion(): string { version }
    function GetDependencies(): seq<YarnLockDependency> { dependencies }
  }

  /** Each getter returns what the constructor was given. */
  lemma EntryGettersReturnConstructorArguments(ids: seq<YarnLockEntryId>, version: string,
                                               dependencies: seq<YarnLockDependency>)
    ensures YarnLockEntry(ids, version, dependencies).GetIds() == ids
    ensures YarnLockEntry(ids, version, dependencies).GetVersion() == version
    ensures YarnLockEntry(ids, version, dependencies).GetDependencies() == dependencies
  {
  }

  /** What `build` yields from the builder's fields: an entry once an id was added and
      a version set, nothing otherwise. */
  function BuiltEntry(ids: seq<YarnLockEntryId>, version: Option<string>,
                      dependencies: seq<YarnLockDependency>): Option<YarnLockEntry>
  {
    if ids != [] && version.Some? then Some(YarnLockEntry(ids, version.value, dependencies)) else None
  }

  /** A built entry has at least one id and carries the version that was set; an entry is
      built exactly when both were supplied. */
  lemma BuiltEntryIff(ids: seq<YarnLockEntryId>, version: Option<string>, dependencies: seq<YarnLockDependency>)
    ensures BuiltEntry(ids, version, dependencies).Some? <==> ids != [] && version.Some?
    ensures BuiltEntry(ids, version, dependencies).Some? ==>
      && BuiltEntry(ids, version, dependencies).value.GetIds() == ids
      && BuiltEntry(ids, version, dependencies).value.GetVersion() == version.value
      && BuiltEntry(ids, version, dependencies).value.GetDependencies() == dependencies
  {
  }

  class YarnLockEntryBuilder {
    var ids: seq<YarnLockEntryId>
    var version: Option<string>
    var dependencies: seq<YarnLockDependency>

    constructor ()
      ensures ids == [] && version == None && dependencies == []
    {
      ids := [];
      version := None;
      dependencies := [];
    }

    method AddId(id: YarnLockEntryId)
      modifies this
      ensures ids == old(ids) + [id]
      ensures version == old(version) && dependencies == old(dependencies)
    {
      ids := ids + [id];
    }

    method SetVersion(newVersion: string)
      modifies this
      ensures version == Some(newVersion)
      ensures ids == old(ids) && dependencies == old(dependencies)
    {
      version := Some(newVersion);
    }

    method Build() returns (entry: Option<YarnLockEntry>)
      ensures entry == BuiltEntry(ids, version, dependencies)
    {
      if ids == [] || version == None {
        return None;
      }
      entry := Some(YarnLockEntry(ids, version.value, dependencies));
    }
  }

  /** Java's String.trim: every character up to U+0020 counts as blank. */
  predicate IsBlank(c: char) {
    c <= ' '
  }

  function TrimStart(s: string): (t: string)
    ensures |t| <= |s| && t == s[|s| - |t|..]
    ensures t == [] || !IsBlank(t[0])
  {
    if s != [] && IsBlank(s[0]) then TrimStart(s[1..]) else s
  }

  function TrimEnd(s: string): (t: string)
    ensures |t| <= |s| && t == s[..|t|]
    ensures t == [] || !IsBlank(t[|t| - 1])
  {
    if s != [] && IsBlank(s[|s| - 1]) then TrimEnd(s[..|s| - 1]) else s
  }

  function Trim(s: string): string {
    TrimEnd(TrimStart(s))
  }

  /** Blanks before a non-blank start are all that TrimStart removes. */
  lemma {:induction false} TrimStartSkipsBlanks(blanks: string, t: string)
    requires forall i :: 0 <= i < |blanks| ==> IsBlank(blanks[i])
    requires t == [] || !IsBlank(t[0])
    ensures TrimStart(blanks + t) == t
  {
    if blanks != [] {
      assert (blanks + t)[1..] == blanks[1..] + t;
      TrimStartSkipsBlanks(blanks[1..], t);
    } else {
      assert blanks + t == t;
    }
  }

  /** Leading blanks go, and a text that ends in a non-blank is otherwise kept. */
  lemma TrimAfterBlanks(blanks: string, t: string)
    requires forall i :: 0 <= i < |blanks| ==> IsBlank(blanks[i])
    requires t != [] && !IsBlank(t[0]) && !IsBlank(t[|t| - 1])
    ensures Trim(blanks + t) == t
  {
    TrimStartSkipsBlanks(blanks, t);
  }

  predicate IsSeparator(c: char) {
    c == ' ' || c == ':'
  }

  /** Where the key of a trimmed line ends: its first space or colon, or its end. */
  function SeparatorIndex(t: string): (k: nat)
    ensures k <= |t|
    ensures forall i :: 0 <= i < k ==> !IsSeparator(t[i])
    ensures k < |t| ==> IsSeparator(t[k])
  {
    if t == [] || IsSeparator(t[0]) then 0 else 1 + SeparatorIndex(t[1..])
  }

  function Unquote(v: string): string {
    if |v| >= 2 && v[0] == '"' && v[|v| - 1] == '"' then v[1..|v| - 1] else v
  }

  /** A line split into its key and its value; `None` when the line has no separator. */
  function SplitKeyValue(line: string): Option<(string, string)> {
    var t := Trim(line);
    var k := SeparatorIndex(t);
    if k == |t| then None
    else
      Some((t[..k], Unquote(Trim(AfterColon(t[k..])))))
  }

  /** The text after a key, without the colon that may follow it. */
  function AfterColon(rest: string): string {
    if rest != [] && rest[0] == ':' then rest[1..] else rest
  }

  /** The four shapes of a key/value line. */
  datatype ValueSyntax = Bare | Quoted | ColonBare | ColonQuoted

  /** The line of the given shape, indented as entry bodies are. */
  function KeyValueLine(syntax: ValueSyntax, key: string, value: string): string {
    match syntax
    case Bare => "  " + key + " " + value
    case Quoted => "  " + key + " \"" + value + "\""
    case ColonBare => "  " + key + ": " + value
    case ColonQuoted => "  " + key + ": \"" + value + "\""
  }

  /** A key: non-empty, with no blank and no colon. */
  predicate IsKey(key: string) {
    key != [] && forall i :: 0 <= i < |key| ==> !IsBlank(key[i]) && key[i] != ':'
  }

  /** A value as it appears unquoted: non-empty, not starting with a quote, and with no
      blank at either end. */
  predicate IsPlainValue(value: string) {
    value != [] && !IsBlank(value[0]) && !IsBlank(value[|value| - 1]) && value[0] != '"'
  }

  /** The key of a line `key` + `rest` whose rest starts at a separator. */
  lemma {:induction false} SeparatorAfterKey(key: string, rest: string)
    requires IsKey(key) && rest != [] && IsSeparator(rest[0])
    ensures SeparatorIndex(key + rest) == |key|
    decreases |key|
  {
    assert (key + rest)[0] == key[0];
    assert (key + rest)[1..] == key[1..] + rest;
    if |key| == 1 {
      assert key[1..] + rest == rest;
    } else {
      assert IsKey(key[1..]) by {
        forall i | 0 <= i < |key[1..]| ensures !IsBlank(key[1..][i]) && key[1..][i] != ':' {
          assert key[1..][i] == key[i + 1];
        }
      }
      SeparatorAfterKey(key[1..], rest);
    }
  }

  /** An indented line made of a key and a text starting at a separator splits at the end
      of the key. */
  lemma SplitAfterKey(key: string, rest: string)
    requires IsKey(key) && rest != [] && IsSeparator(rest[0]) && !IsBlank(rest[|rest| - 1])
    ensures SplitKeyValue("  " + (key + rest)) ==
      Some((key, Unquote(Trim(AfterColon(rest)))))
  {
    var t := key + rest;
    assert t[0] == key[0] && t[|t| - 1] == rest[|rest| - 1];
    TrimAfterBlanks("  ", t);
    SeparatorAfterKey(key, rest);
    assert t[..|key|] == key && t[|key|..] == rest;
  }

  /** The value text after the key (colon included), the same for every key. */
  function ValueText(syntax: ValueSyntax, value: string): string {
    match syntax
    case Bare => " " + value
    case Quoted => " \"" + value + "\""
    case ColonBare => ": " + value
    case ColonQuoted => ": \"" + value + "\""
  }

  lemma KeyValueLineShape(syntax: ValueSyntax, key: string, value: string)
    ensures KeyValueLine(syntax, key, value) == "  " + (key + ValueText(syntax, value))
  {
    match syntax
    case Bare =>
      assert "  " + key + " " + value == "  " + (key + (" " + value));
    case Quoted =>
      assert "  " + key + " \"" + value + "\"" == "  " + (key + (" \"" + value + "\""));
    case ColonBare =>
      assert "  " + key + ": " + value == "  " + (key + (": " + value));
    case ColonQuoted =>
      assert "  " + key + ": \"" + value + "\"" == "  " + (key + (": \"" + value + "\""));
  }

  /** A bare value is recovered from a separating space and itself. */
  lemma BareValue(value: string)
    requires IsPlainValue(value)
    ensures Unquote(Trim(" " + value)) == value
  {
    TrimAfterBlanks(" ", value);
  }

  /** A quoted value is recovered from a separating space and itself in quotes. */
  lemma QuotedValue(value: string)
    requires IsPlainValue(value)
    ensures Unquote(Trim(" " + ("\"" + value + "\""))) == value
  {
    var quoted := "\"" + value + "\"";
    TrimAfterBlanks(" ", quoted);
    assert quoted[1..|quoted| - 1] == value;
  }

  /** What a value text must satisfy for the line to split into the key and `value`. */
  predicate RecoversValue(rest: string, value: string) {
    && rest != [] && IsSeparator(rest[0]) && !IsBlank(rest[|rest| - 1])
    && Unquote(Trim(AfterColon(rest))) == value
  }

  /** A space (and no colon) before the value, quoted or not. */
  lemma SpacedValueText(rest: string, shown: string, value: string)
    requires IsPlainValue(value) && (shown == value || shown == "\"" + value + "\"")
    requires rest == " " + shown
    ensures RecoversValue(rest, value)
  {
    assert rest[0] == ' ' && rest[|rest| - 1] == shown[|shown| - 1];
    assert AfterColon(rest) == rest;
    if shown == value {
      BareValue(value);
    } else {
      QuotedValue(value);
    }
  }

  /** A colon, then a space, then the value, quoted or not. */
  lemma ColonValueText(rest: string, shown: string, value: string)
    requires IsPlainValue(value) && (shown == value || shown == "\"" + value + "\"")
    requires rest == ": " + shown
    ensures RecoversValue(rest, value)
  {
    assert rest[0] == ':' && rest[|rest| - 1] == shown[|shown| - 1];
    assert AfterColon(rest) == " " + shown;
    if shown == value {
      BareValue(value);
    } else {
      QuotedValue(value);
    }
  }

  /** Whatever the shape, dropping the colon, trimming and unquoting recovers the value. */
  lemma ValueTextValue(syntax: ValueSyntax, value: string)
    requires IsPlainValue(value)
    ensures RecoversValue(ValueText(syntax, value), value)
  {
    var quoted := "\"" + value + "\"";
    match syntax {
      case Bare =>
        SpacedValueText(ValueText(syntax, value), value, value);
      case Quoted =>
        assert ValueText(syntax, value) == " " + quoted;
        SpacedValueText(ValueText(syntax, value), quoted, value);
      case ColonBare =>
        ColonValueText(ValueText(syntax, value), value, value);
      case ColonQuoted =>
        assert ValueText(syntax, value) == ": " + quoted;
        ColonValueText(ValueText(syntax, value), quoted, value);
    }
  }

  /** All four shapes of a line split into the same key and the same unquoted value. */
  lemma FourSyntaxesAgree(syntax: ValueSyntax, key: string, value: string)
    requires IsKey(key) && IsPlainValue(value)
    ensures SplitKeyValue(KeyValueLine(syntax, key, value)) == Some((key, value))
  {
    KeyValueLineShape(syntax, key, value);
    ValueTextValue(syntax, value);
    SplitAfterKey(key, ValueText(syntax, value));
  }

  /** Which builder setter a key/value element parser writes through. */
  datatype EntrySetter = SetVersion

  class YarnLockKeyValuePairElementParser {
    const targetKey: string
    const setter: EntrySetter

    constructor (targetKey: string, setter: EntrySetter)
      ensures this.targetKey == targetKey && this.setter == setter
    {
      this.targetKey := targetKey;
      this.setter := setter;
    }

    /** The line is a key/value line for this parser's key. */
    predicate Applies(line: string) {
      SplitKeyValue(line).Some? && SplitKeyValue(line).value.0 == targetKey
    }

    /** Writes the line's value through the configured setter. The element is the single
        line at `lineIndex`, so the next unconsumed line is the one after it. */
    method ParseElement(builder: YarnLockEntryBuilder, lines: seq<string>, lineIndex: nat) returns (nextIndex: nat)
      requires lineIndex < |lines| && Applies(lines[lineIndex])
      modifies builder
      ensures nextIndex == lineIndex + 1 && nextIndex <= |lines|
      ensures setter == SetVersion ==> builder.version == Some(SplitKeyValue(lines[lineIndex]).value.1)
      ensures builder.ids == old(builder.ids) && builder.dependencies == old(builder.dependencies)
    {
      var keyValue := SplitKeyValue(lines[lineIndex]).value;
      match setter {
        case SetVersion => builder.SetVersion(keyValue.1);
      }
      nextIndex := lineIndex + 1;
    }
  }

  /** Every shape of a "version" line splits into that key and its value. */
  lemma VersionLineSplits(syntax: ValueSyntax, value: string)
    requires IsPlainValue(value)
    ensures SplitKeyValue(KeyValueLine(syntax, "version", value)) == Some(("version", value))
  {
    assert IsKey("version");
    FourSyntaxesAgree(syntax, "version", value);
  }

  /** The element parser's test, for one line: a parser for key "version" writing through
      `setVersion` accepts the line, and a builder holding one id that then parses it
      builds an entry with that id, no dependencies and the line's value as its version. */
  method ParseVersionLine(syntax: ValueSyntax, value: string) returns (applies: bool, entry: Option<YarnLockEntry>)
    requires IsPlainValue(value)
    ensures applies
    ensures entry == Some(YarnLockEntry([YarnLockEntryId("idname", "idversion")], value, []))
  {
    var parser := new YarnLockKeyValuePairElementParser("version", SetVersion);
    var line := KeyValueLine(syntax, "version", value);
    VersionLineSplits(syntax, value);
    applies := parser.Applies(line);
    var builder := new YarnLockEntryBuilder();
    builder.AddId(YarnLockEntryId("idname", "idversion"));
    assert builder.ids == [YarnLockEntryId("idname", "idversion")];
    var lines := [line];
    assert lines[0] == line;
    var nextIndex := parser.ParseElement(builder, lines, 0);
    assert builder.version == Some(value);
    entry := builder.Build();
  }

  const TestVersionValue: string := "test.version.value"

  /** The value used by the test is a plain value. */
  lemma TestVersionValueIsPlain()
    ensures IsPlainValue(TestVersionValue)
  {
  }

  /** The four lines of the test are the four shapes of the key "version" and that value. */
  lemma TestLineBare()
    ensures KeyValueLine(Bare, "version", TestVersionValue) == "  version test.version.value"
  {
  }

  lemma TestLineQuoted()
    ensures KeyValueLine(Quoted, "version", TestVersionValue) == "  version \"test.version.value\""
  {
  }

  lemma TestLineColonBare()
    ensures KeyValueLine(ColonBare, "version", TestVersionValue) == "  version: test.version.value"
  {
  }

  lemma TestLineColonQuoted()
    ensures KeyValueLine(ColonQuoted, "version", TestVersionValue) == "  version: \"test.version.value\""
  {
  }
}
