/**
 * `Pattern`: a node with a validated `Type`, a `PatternValue` and an
 * optional quantifier. It compiles to its resolved value followed by the
 * quantifier's suffix.
 */
module Patterns {
  import opened Wrappers
  import opened Text
  import opened Formats
  import opened Values
  import Q = Quantifiers
  import opened Properties

  /** The four pattern types a `Pattern` may have, as its declared allowed values list them. */
  const AllowedTypes: seq<string> := ["Literal", "Anchor", "CharacterClass", "Group"]

  /** `IsValidPatternType`: the four type names, compared ordinally. */
  predicate IsValidPatternType(t: string) {
    t == "Literal" || t == "Anchor" || t == "CharacterClass" || t == "Group"
  }

  /** The setter's test accepts exactly the declared allowed values; case variants are rejected. */
  lemma ValidTypesAreAllowedValues(t: string)
    ensures IsValidPatternType(t) <==> t in AllowedTypes
    ensures !IsValidPatternType("literal") && !IsValidPatternType("") && !IsValidPatternType("NamedCapturing")
  {
    assert "literal"[0] != "Literal"[0];
  }

  /** The resolved value of a node: nothing when `Value` is null, else its `ToRegex()`. */
  function Resolved(v: Option<PatternValue>): Result<string> {
    if v.None? then Ok("") else Values.ToRegex(v.value)
  }

  /** The quantifier suffix a node appends: nothing when `Quantifiers` is null, else `Quantifiers.ToRegex("")`. */
  function Suffix(q: Option<Q.Quantifier>): Result<string> {
    if q.None? then Ok("") else Q.ToRegex(q.value, "")
  }

  /** A pattern object as one of the decoders produces it; every member may be missing. */
  datatype PatternRecord = PatternRecord(
    id: Option<string>,
    patternType: Option<string>,
    value: Option<PatternValue>,
    quantifiers: Option<Q.Quantifier>,
    properties: Option<PatternProperties>,
    message: Option<string>)

  /** The JSON and YAML decoders for whole pattern objects: the decoded object, `None` for null, or the exception raised. */
  datatype PatternCodec = PatternCodec(
    json: string -> Result<Option<PatternRecord>>,
    yaml: string -> Result<Option<PatternRecord>>)

  /** Which decoder the object-text constructor runs: `{`-prefixed text is JSON, else YAML-shaped text is YAML, else none. */
  function TextRoute(s: string): (f: Option<Format>)
    ensures StartsWith(s, "{") ==> f == Some(Json)
    ensures !StartsWith(s, "{") && ':' in s ==> f == Some(Yaml)
    ensures !StartsWith(s, "{") && ':' !in s ==> f.None?
  {
    IsYamlIffColon(s);
    if StartsWith(s, "{") then Some(Json) else if IsYaml(s) then Some(Yaml) else None
  }

  /** The decoder the object-text constructor runs for a route. */
  function Decode(codec: PatternCodec, f: Format, s: string): Result<Option<PatternRecord>> {
    if f == Json then codec.json(s) else codec.yaml(s)
  }

  class Pattern {
    var id: Option<string>
    var patternType: string
    var value: Option<PatternValue>
    var quantifiers: Option<Q.Quantifier>
    var properties: Option<PatternProperties>
    var message: Option<string>

    /** `Type` only ever holds a value its setter accepted (it starts as `Literal`). */
    ghost predicate Valid()
      reads this
    {
      IsValidPatternType(patternType)
    }

    /** `new Pattern()`: a `Literal` with an empty value; `id` stands for the generated Guid. */
    constructor (id: string)
      ensures Valid()
      ensures this.id == Some(id) && patternType == "Literal" && value == Some(Str(""))
      ensures quantifiers.None? && properties.None? && message.None?
    {
      this.id := Some(id);
      patternType := "Literal";
      value := Some(Str(""));
      quantifiers := None;
      properties := None;
      message := None;
    }

    /** `new Pattern(PatternValue)`: a `Literal` holding the given value, which may be null. */
    constructor OfValue(id: string, v: Option<PatternValue>)
      ensures Valid()
      ensures this.id == Some(id) && patternType == "Literal" && value == v
      ensures quantifiers.None? && properties.None? && message.None?
    {
      this.id := Some(id);
      patternType := "Literal";
      value := v;
      quantifiers := None;
      properties := None;
      message := None;
    }

    /** The `Type` setter: a valid type is stored, anything else throws and leaves `Type` as it was. */
    method SetType(t: string) returns (r: Result<()>)
      modifies this`patternType
      ensures IsValidPatternType(t) ==> r == Ok(()) && patternType == t
      ensures !IsValidPatternType(t) ==> r == Err(ArgumentException) && patternType == old(patternType)
    {
      if !IsValidPatternType(t) {
        return Err(ArgumentException);
      }
      patternType := t;
      return Ok(());
    }

    /** The text `ToRegex` takes from `Value`, following the source's tests in their order. */
    function ValueText(): Result<string>
      reads this
    {
      if value.None? then Ok("")
      else match Values.ToString(value.value)
        case Err(e) => Err(e)
        case Ok(s) =>
          if s != "" && patternType == "Literal" then Ok(s)
          else match Values.ToRegex(value.value)
            case Err(e) => Err(e)
            case Ok(t) =>
              if t != "" && (patternType == "Anchor" || patternType == "CharacterClass" || patternType == "Group")
              then Ok(t) else Ok("")
    }

    /**
     * `Pattern.ToRegex()`. `Value.ToString()` is evaluated before the type
     * is looked at, so a null-content value throws whatever the type.
     */
    function ToRegex(): (r: Result<string>)
      reads this
      ensures Valid() ==> r == Append(Resolved(value), Suffix(quantifiers))
      ensures value.Some? && Values.ToRegex(value.value).Err? ==> r == Values.ToRegex(value.value)
      ensures value.None? ==> r == Suffix(quantifiers)
    {
      if value.Some? then
        ToStringAgreesWithToRegex(value.value);
        Append(ValueText(), Suffix(quantifiers))
      else
        assert Suffix(quantifiers).Ok? ==> "" + Suffix(quantifiers).value == Suffix(quantifiers).value;
        Append(ValueText(), Suffix(quantifiers))
    }

    /**
     * `new Pattern(id, type, value, quantifiers, properties, message)`:
     * the `Type` setter runs, so an invalid type throws and no object is
     * produced.
     */
    static method Create(id: string, t: string, v: Option<PatternValue>, q: Option<Q.Quantifier>,
                         props: Option<PatternProperties>, msg: Option<string>) returns (r: Result<Pattern>)
      ensures r.Err? <==> !IsValidPatternType(t)
      ensures r.Err? ==> r.error == ArgumentException
      ensures r.Ok? ==> fresh(r.value) && r.value.Valid() && r.value.patternType == t
      ensures r.Ok? ==> r.value.id == Some(id) && r.value.value == v && r.value.quantifiers == q
      ensures r.Ok? ==> r.value.properties == props && r.value.message == msg
    {
      var p := new Pattern(id);
      var outcome := p.SetType(t);
      if outcome.Err? {
        return Err(outcome.error);
      }
      p.value := v;
      p.quantifiers := q;
      p.properties := props;
      p.message := msg;
      return Ok(p);
    }

    /**
     * `new Pattern(string)`: JSON copies every member of the decoded object
     * as is; YAML fills missing ones with a fresh id, `Literal`, an empty
     * value and an empty message; a null decoded object changes nothing.
     * Either way, a value still null at the end becomes empty.
     */
    static method FromText(text: Option<string>, freshId: string, codec: PatternCodec) returns (r: Result<Pattern>)
      ensures text.None? ==> r == Err(NullReferenceException)
      ensures r.Ok? ==> fresh(r.value) && r.value.Valid() && r.value.value.Some?
      // no decoder, or a decoder that yields null: the defaults of `new Pattern()`
      ensures text.Some? && (TextRoute(text.value).None? || Decode(codec, TextRoute(text.value).value, text.value) == Ok(None)) ==>
        r.Ok? && r.value.id == Some(freshId) && r.value.patternType == "Literal" && r.value.value == Some(Str(""))
        && r.value.quantifiers.None? && r.value.properties.None? && r.value.message.None?
      // the decoder's exception propagates
      ensures text.Some? && TextRoute(text.value).Some? && Decode(codec, TextRoute(text.value).value, text.value).Err? ==>
        r == Err(Decode(codec, TextRoute(text.value).value, text.value).error)
      // JSON: a missing or invalid type throws; otherwise every member is copied
      ensures text.Some? && TextRoute(text.value) == Some(Json) && codec.json(text.value).Ok? && codec.json(text.value).value.Some? ==>
        var d := codec.json(text.value).value.value;
        (d.patternType.None? || !IsValidPatternType(d.patternType.value)) ==> r == Err(ArgumentException)
      ensures text.Some? && TextRoute(text.value) == Some(Json) && codec.json(text.value).Ok? && codec.json(text.value).value.Some? ==>
        var d := codec.json(text.value).value.value;
        d.patternType.Some? && IsValidPatternType(d.patternType.value) ==>
          r.Ok? && r.value.id == d.id && r.value.patternType == d.patternType.value
          && r.value.value == (if d.value.Some? then d.value else Some(Str("")))
          && r.value.quantifiers == d.quantifiers && r.value.properties == d.properties && r.value.message == d.message
      // YAML: an invalid type throws; missing members take their defaults
      ensures text.Some? && TextRoute(text.value) == Some(Yaml) && codec.yaml(text.value).Ok? && codec.yaml(text.value).value.Some? ==>
        var d := codec.yaml(text.value).value.value;
        d.patternType.Some? && !IsValidPatternType(d.patternType.value) ==> r == Err(ArgumentException)
      ensures text.Some? && TextRoute(text.value) == Some(Yaml) && codec.yaml(text.value).Ok? && codec.yaml(text.value).value.Some? ==>
        var d := codec.yaml(text.value).value.value;
        (d.patternType.None? || IsValidPatternType(d.patternType.value)) ==>
          r.Ok? && r.value.id == (if d.id.Some? then d.id else Some(freshId))
          && r.value.patternType == (if d.patternType.Some? then d.patternType.value else "Literal")
          && r.value.value == (if d.value.Some? then d.value else Some(Str("")))
          && r.value.quantifiers == d.quantifiers && r.value.properties == d.properties
          && r.value.message == (if d.message.Some? then d.message else Some(""))
    {
      if text.None? {
        return Err(NullReferenceException);
      }
      var s := text.value;
      var p := new Pattern.OfValue(freshId, None);
      var route := TextRoute(s);
      if route.Some? {
        var decoded := Decode(codec, route.value, s);
        if decoded.Err? {
          return Err(decoded.error);
        }
        if decoded.value.Some? {
          var d := decoded.value.value;
          if route == Some(Json) {
            p.id := d.id;
            var outcome := p.SetType(if d.patternType.Some? then d.patternType.value else "");
            if d.patternType.None? || outcome.Err? {
              return Err(ArgumentException);
            }
            p.value := d.value;
            p.quantifiers := d.quantifiers;
            p.properties := d.properties;
            p.message := d.message;
          } else {
            p.id := if d.id.Some? then d.id else Some(freshId);
            var outcome := p.SetType(if d.patternType.Some? then d.patternType.value else "Literal");
            if outcome.Err? {
              return Err(outcome.error);
            }
            p.value := if d.value.Some? then d.value else Some(Str(""));
            p.quantifiers := d.quantifiers;
            p.properties := d.properties;
            p.message := if d.message.Some? then d.message else Some("");
          }
        }
      }
      if p.value.None? {
        p.value := Some(Str(""));
      }
      return Ok(p);
    }
  }

  /** A default pattern compiles to the empty string. */
  method DefaultCompilesToEmpty(id: string) returns (r: Result<string>)
    ensures r == Ok("")
  {
    var p := new Pattern(id);
    r := p.ToRegex();
    assert "" + "" == "";
  }

  /** `Id`, `Message` and `Properties` never reach the output: equal type, value and quantifier compile alike. */
  lemma OutputIgnoresIdMessageProperties(p: Pattern, q: Pattern)
    requires p.patternType == q.patternType && p.value == q.value && p.quantifiers == q.quantifiers
    ensures p.ToRegex() == q.ToRegex()
  {
  }

  /** A null-content value throws for every type, valid or not, and whatever the quantifier. */
  lemma UnsetValueThrows(p: Pattern)
    requires p.value == Some(Unset)
    ensures p.ToRegex() == Err(RuntimeBinderException)
  {
  }

  /**
   * The quantifier sees `""` rather than the value, so a greedy-only
   * quantifier adds `*` even after a value that already ends in `*`.
   */
  lemma GreedyAlwaysAppends(p: Pattern, s: string)
    requires p.Valid() && p.value == Some(Str(s))
    requires p.quantifiers == Some(Q.Quantifier(None, None, None, None, Some(true)))
    ensures p.ToRegex() == Ok(s + "*")
  {
    Q.TrailingQuantifier("");
    assert "" + "*" + "" == "*";
  }

  /** An empty resolved value contributes nothing: the output is the quantifier suffix alone. */
  lemma EmptyValueGivesSuffix(p: Pattern)
    requires p.Valid() && Resolved(p.value) == Ok("")
    ensures p.ToRegex() == Suffix(p.quantifiers)
  {
    if Suffix(p.quantifiers).Ok? {
      assert "" + Suffix(p.quantifiers).value == Suffix(p.quantifiers).value;
    }
  }
}
