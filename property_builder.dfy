/** The most basic detect configuration property (Property.kt): an immutable key and
    descriptive fields filled in by fluent setters, each of which returns the property
    itself, and the message of the exception raised when a raw value cannot be parsed. */
module DetectConfig {
  import opened Common

  /** A help group, left opaque. */
  datatype Group = Group(name: string)

  /** A help category, left opaque; properties start in the Simple one. */
  datatype Category = Category(name: string)

  const Simple: Category := Category("Simple")

  class Property {
    const key: string
    var name: Option<string>
    var from: Option<string>
    var helpShort: Option<string>
    var helpLong: Option<string>
    var primaryGroup: Option<Group>
    var additionalGroups: Option<seq<Group>>
    var category: Category

    /** Everything but the key is null, and the category is Simple. */
    constructor (key: string)
      ensures this.key == key
      ensures name == None && from == None && helpShort == None && helpLong == None
      ensures primaryGroup == None && additionalGroups == None && category == Simple
    {
      this.key := key;
      name := None;
      from := None;
      helpShort := None;
      helpLong := None;
      primaryGroup := None;
      additionalGroups := None;
      category := Simple;
    }

    method Info(name: string, from: string) returns (self: Property)
      modifies this
      ensures self == this
      ensures this.name == Some(name) && this.from == Some(from)
      ensures helpShort == old(helpShort) && helpLong == old(helpLong)
      ensures primaryGroup == old(primaryGroup) && additionalGroups == old(additionalGroups)
      ensures category == old(category)
    {
      this.name := Some(name);
      this.from := Some(from);
      return this;
    }

    /** Without a long text, the long help is reset to null. */
    method Help(short: string, long: Option<string> := None) returns (self: Property)
      modifies this
      ensures self == this
      ensures helpShort == Some(short) && helpLong == long
      ensures name == old(name) && from == old(from)
      ensures primaryGroup == old(primaryGroup) && additionalGroups == old(additionalGroups)
      ensures category == old(category)
    {
      helpShort := Some(short);
      helpLong := long;
      return this;
    }

    /** The additional groups are kept in argument order. */
    method Groups(primaryGroup: Group, additionalGroups: seq<Group>) returns (self: Property)
      modifies this
      ensures self == this
      ensures this.primaryGroup == Some(primaryGroup) && this.additionalGroups == Some(additionalGroups)
      ensures name == old(name) && from == old(from)
      ensures helpShort == old(helpShort) && helpLong == old(helpLong)
      ensures category == old(category)
    {
      this.primaryGroup := Some(primaryGroup);
      this.additionalGroups := Some(additionalGroups);
      return this;
    }

    method SetCategory(category: Category) returns (self: Property)
      modifies this
      ensures self == this
      ensures this.category == category
      ensures name == old(name) && from == old(from)
      ensures helpShort == old(helpShort) && helpLong == old(helpLong)
      ensures primaryGroup == old(primaryGroup) && additionalGroups == old(additionalGroups)
    {
      this.category := category;
      return this;
    }

    /** The defaults of the base property; subclasses may answer otherwise. */
    predicate IsCaseSensitive() { false }

    predicate IsOnlyExampleValues() { false }

    function ListExampleValues(): Option<seq<string>> { Some([]) }

    function DescribeDefault(): Option<string> { None }
  }

  /** A property described by a full fluent chain, as the detect properties are declared:
      every field holds what its setter was last given, and the key is the constructor's. */
  method Describe(key: string, name: string, from: string, short: string,
                  primaryGroup: Group, additionalGroups: seq<Group>, category: Category)
    returns (property: Property)
    ensures property.key == key
    ensures property.name == Some(name) && property.from == Some(from)
    ensures property.helpShort == Some(short) && property.helpLong == None
    ensures property.primaryGroup == Some(primaryGroup) && property.additionalGroups == Some(additionalGroups)
    ensures property.category == category
    ensures !property.IsCaseSensitive() && !property.IsOnlyExampleValues()
    ensures property.ListExampleValues() == Some([]) && property.DescribeDefault() == None
  {
    var p := new Property(key);
    p := p.Info(name, from);
    p := p.Help(short);
    p := p.Groups(primaryGroup, additionalGroups);
    p := p.SetCategory(category);
    property := p;
  }

  const ParseMessageStart: string := "Unable to parse raw value '"
  const ParseMessageMiddle: string := "' and coerce it into type '"
  const ParseMessageEnd: string := "'. "

  /** The message of a ValueParseException; the additional message defaults to empty. */
  function ValueParseMessage(rawValue: string, typeName: string, additionalMessage: string := ""): string {
    ParseMessageStart + rawValue + ParseMessageMiddle + typeName + ParseMessageEnd + additionalMessage
  }

  /** The raw value, the type name and the additional message can be read back from their
      positions in the message. */
  lemma ValueParseMessageParts(rawValue: string, typeName: string, additionalMessage: string)
    ensures var m := ValueParseMessage(rawValue, typeName, additionalMessage);
      var rawEnd := |ParseMessageStart| + |rawValue|;
      var typeStart := rawEnd + |ParseMessageMiddle|;
      var typeEnd := typeStart + |typeName|;
      && |m| == typeEnd + |ParseMessageEnd| + |additionalMessage|
      && m[..|ParseMessageStart|] == ParseMessageStart
      && m[|ParseMessageStart|..rawEnd] == rawValue
      && m[rawEnd..typeStart] == ParseMessageMiddle
      && m[typeStart..typeEnd] == typeName
      && m[typeEnd..typeEnd + |ParseMessageEnd|] == ParseMessageEnd
      && m[typeEnd + |ParseMessageEnd|..] == additionalMessage
  {
    var m := ValueParseMessage(rawValue, typeName, additionalMessage);
    var a := ParseMessageStart + rawValue;
    var b := a + ParseMessageMiddle;
    var c := b + typeName;
    var d := c + ParseMessageEnd;
    assert m == d + additionalMessage;
    assert m[..|d|] == d;
    assert d[..|c|] == c;
    assert c[..|b|] == b;
    assert b[..|a|] == a;
  }

  /** Without an additional message the message ends right after the type name's "'. ". */
  lemma DefaultAdditionalMessage(rawValue: string, typeName: string)
    ensures ValueParseMessage(rawValue, typeName) ==
      ParseMessageStart + rawValue + ParseMessageMiddle + typeName + ParseMessageEnd
  {
  }

  /** For a fixed type name and additional message, messages tell raw values of the same
      length apart. */
  lemma ValueParseMessageDistinguishesRawValues(raw1: string, raw2: string, typeName: string, additionalMessage: string)
    requires |raw1| == |raw2| && raw1 != raw2
    ensures ValueParseMessage(raw1, typeName, additionalMessage) != ValueParseMessage(raw2, typeName, additionalMessage)
  {
    ValueParseMessageParts(raw1, typeName, additionalMessage);
    ValueParseMessageParts(raw2, typeName, additionalMessage);
  }
}
