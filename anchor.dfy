/**
 * `AnchorPattern`: a node whose `Value` setter accepts only an anchor name
 * or an anchor token of FluentRegex's `Anchors` table and stores the token.
 * Its `Type` is fixed and its `ToRegex` is the stored token alone.
 * `IsValidAnchorType` and `IsValidAnchor` are `FluentRegex.IsName` and
 * `FluentRegex.IsToken` over the anchors table.
 */
module Anchors {
  import opened Wrappers
  import opened Text
  import opened Formats
  import opened Values
  import opened FluentRegex
  import Q = Quantifiers
  import opened Properties

  /** The `Type` every anchor reports. */
  const AnchorType := "Anchor"

  /**
   * `GetAnchor`: walks every field and keeps the token of the last one
   * whose name matches ignoring case; no match throws.
   */
  method GetAnchor(anchors: Table, value: string) returns (r: Result<string>)
    ensures r.Ok? <==> LastCaseInsensitive(anchors, value).Some?
    ensures r.Ok? ==> r.value == LastCaseInsensitive(anchors, value).value
    ensures r.Err? ==> r.error == ArgumentException
  {
    var anchor: Option<string> := None;
    var i := 0;
    while i < |anchors|
      invariant 0 <= i <= |anchors|
      invariant anchor == LastCaseInsensitive(anchors[..i], value)
    {
      assert anchors[..i + 1][..i] == anchors[..i];
      if ToLower(anchors[i].name) == ToLower(value) {
        anchor := Some(anchors[i].token);
      }
      i := i + 1;
    }
    assert anchors[..|anchors|] == anchors;
    if anchor.None? {
      return Err(ArgumentException);
    }
    return Ok(anchor.value);
  }

  /**
   * What the `Value` setter stores, or what it throws. The argument is
   * converted to a string; a name is replaced by its token, a token is
   * kept; either then goes through the `PatternValue` string constructor.
   */
  function Normalized(anchors: Table, codec: Codec, v: PatternValue): (r: Result<PatternValue>)
    ensures AsString(v).Err? ==> r == Err(AsString(v).error)
    ensures AsString(v).Ok? && !IsName(anchors, AsString(v).value) && !IsToken(anchors, AsString(v).value) ==>
      r == Err(ArgumentException)
    ensures r.Ok? ==> IsName(anchors, AsString(v).value) || IsToken(anchors, AsString(v).value)
  {
    match AsString(v)
    case Err(e) => Err(e)
    case Ok(s) =>
      if !(IsName(anchors, s) || IsToken(anchors, s)) then Err(ArgumentException)
      else if IsName(anchors, s) then
        match LastCaseInsensitive(anchors, s)
        case None => Err(ArgumentException)
        case Some(token) => FromString(Some(token), codec)
      else FromString(Some(s), codec)
  }

  /** With a well-formed table, a name is stored as its own token. */
  lemma NameStoresToken(anchors: Table, codec: Codec, v: PatternValue, s: string)
    requires WellFormed(anchors) && AsString(v) == Ok(s) && IsName(anchors, s)
    ensures Normalized(anchors, codec, v) == Ok(Str(Lookup(anchors, s).value))
  {
    CaseInsensitiveFindsExactName(anchors, s);
    LookupIsToken(anchors, s);
  }

  /** With a well-formed table, a token is stored verbatim. */
  lemma TokenStoredVerbatim(anchors: Table, codec: Codec, v: PatternValue, s: string)
    requires WellFormed(anchors) && AsString(v) == Ok(s) && IsToken(anchors, s)
    ensures Normalized(anchors, codec, v) == Ok(Str(s))
  {
    TokenIsNotName(anchors, s);
  }

  /** Whatever the setter accepts, the anchor compiles to a token of the table. */
  lemma AcceptedCompilesToToken(anchors: Table, codec: Codec, v: PatternValue)
    requires WellFormed(anchors) && Normalized(anchors, codec, v).Ok?
    ensures Values.ToRegex(Normalized(anchors, codec, v).value).Ok?
    ensures IsToken(anchors, Values.ToRegex(Normalized(anchors, codec, v).value).value)
  {
    var s := AsString(v).value;
    if IsName(anchors, s) {
      NameStoresToken(anchors, codec, v, s);
      LookupIsToken(anchors, s);
    } else {
      TokenStoredVerbatim(anchors, codec, v, s);
    }
  }

  /** Normalisation is idempotent: assigning the stored value again stores the same value. */
  lemma NormalizedIdempotent(anchors: Table, codec: Codec, v: PatternValue)
    requires WellFormed(anchors) && Normalized(anchors, codec, v).Ok?
    ensures Normalized(anchors, codec, Normalized(anchors, codec, v).value) == Normalized(anchors, codec, v)
  {
    AcceptedCompilesToToken(anchors, codec, v);
    var w := Normalized(anchors, codec, v).value;
    var s := AsString(v).value;
    if IsName(anchors, s) {
      NameStoresToken(anchors, codec, v, s);
    } else {
      TokenStoredVerbatim(anchors, codec, v, s);
    }
    TokenStoredVerbatim(anchors, codec, w, Values.ToRegex(w).value);
  }

  /**
   * `GetAnchor` ignores case but the setter's name test does not: a case
   * variant of a name, which is not itself a token, is rejected although
   * `GetAnchor` would resolve it.
   */
  lemma CaseVariantRejected(anchors: Table, codec: Codec, name: string, variant: string)
    requires WellFormed(anchors) && IsName(anchors, name)
    requires variant != name && ToLower(variant) == ToLower(name) && !IsToken(anchors, variant)
    ensures LastCaseInsensitive(anchors, variant).Some?
    ensures Normalized(anchors, codec, Str(variant)) == Err(ArgumentException)
  {
    CaseVariantIsNotName(anchors, name, variant);
    assert Values.ToRegex(Str(variant)) == Ok(variant);
    assert AsString(Str(variant)) == Ok(variant);
  }

  /**
   * The anchor example of the unit tests: with `WordBoundary` standing for
   * `\b` in the table, the name is stored as `\b` and compiles to it.
   */
  lemma WordBoundaryExample(anchors: Table, codec: Codec)
    requires WellFormed(anchors) && Field("WordBoundary", "\\b") in anchors
    ensures Normalized(anchors, codec, Str("WordBoundary")) == Ok(Str("\\b"))
    ensures Values.ToRegex(Normalized(anchors, codec, Str("WordBoundary")).value) == Ok("\\b")
  {
    LookupFindsField(anchors, Field("WordBoundary", "\\b"));
    NameStoresToken(anchors, codec, Str("WordBoundary"), "WordBoundary");
  }

  /**
   * What the object-text constructor does: blank (or null) text first
   * assigns an empty value through the setter, then JSON text goes to the
   * JSON decoder, else YAML-shaped text to the YAML decoder.
   */
  function ObjectText(text: Option<string>, anchors: Table, codec: Codec): (r: Result<Construction>)
    ensures text.Some? && !IsBlank(text.value) ==>
      r == Ok(if IsJson(text.value) then Decoding(Json) else if IsYaml(text.value) then Decoding(Yaml) else Untouched)
    ensures IsNullOrWhiteSpace(text) && Normalized(anchors, codec, Str("")).Err? ==> r.Err?
  {
    var blank := IsNullOrWhiteSpace(text);
    var setter := if blank then Normalized(anchors, codec, Str("")) else Ok(Unset);
    if setter.Err? then Err(setter.error)
    else if text.None? then Err(NullReferenceException)
    else if IsJson(text.value) then Ok(Decoding(Json))
    else if IsYaml(text.value) then Ok(Decoding(Yaml))
    else if blank then Ok(Assigned(setter.value))
    else Ok(Untouched)
  }

  /** With a well-formed table, blank or null object text throws: the setter rejects the empty value. */
  lemma BlankObjectTextThrows(text: Option<string>, anchors: Table, codec: Codec)
    requires WellFormed(anchors) && IsNullOrWhiteSpace(text)
    ensures ObjectText(text, anchors, codec) == Err(ArgumentException)
  {
    BlankIsNothing(anchors, "");
  }

  class AnchorPattern {
    var id: Option<string>
    var value: Option<PatternValue>
    var quantifiers: Option<Q.Quantifier>
    var message: Option<string>
    var properties: Option<PatternProperties>

    /** `new AnchorPattern()`: no value yet; `id` stands for the generated Guid. */
    constructor (id: string)
      ensures this.id == Some(id) && value.None? && quantifiers.None? && message.None? && properties.None?
    {
      this.id := Some(id);
      value := None;
      quantifiers := None;
      message := None;
      properties := None;
    }

    /** The `Value` getter: an unset value reads as an empty `PatternValue`. */
    function Value(): (v: PatternValue)
      reads this
      ensures value.None? ==> v == Str("") && Values.ToRegex(v) == Ok("")
      ensures value.Some? ==> v == value.value
    {
      if value.None? then Str("") else value.value
    }

    /** The `Type` setter discards what it is given: the type stays `Anchor`. */
    method SetType(t: string)
      ensures unchanged(this)
    {
    }

    /** The `Value` setter: stores the normalised value, or throws and keeps the old one. */
    method SetValue(v: PatternValue, anchors: Table, codec: Codec) returns (r: Result<()>)
      modifies this`value
      ensures Normalized(anchors, codec, v).Ok? ==> r == Ok(()) && value == Some(Normalized(anchors, codec, v).value)
      ensures Normalized(anchors, codec, v).Err? ==> r == Err(Normalized(anchors, codec, v).error) && value == old(value)
    {
      var s := AsString(v);
      if s.Err? {
        return Err(s.error);
      }
      if !(IsName(anchors, s.value) || IsToken(anchors, s.value)) {
        return Err(ArgumentException);
      }
      var text := s.value;
      if IsName(anchors, s.value) {
        var anchor := GetAnchor(anchors, s.value);
        match anchor
        case Err(e) => return Err(e);
        case Ok(t) => text := t;
      }
      var stored := FromString(Some(text), codec);
      if stored.Err? {
        return Err(stored.error);
      }
      value := Some(stored.value);
      return Ok(());
    }

    /** `AnchorPattern.ToRegex()`: the stored value resolved; `Quantifiers` are never read. */
    function ToRegex(): (r: Result<string>)
      reads this
      ensures value.None? ==> r == Ok("")
      ensures value.Some? ==> r == Values.ToRegex(value.value)
    {
      Values.ToRegex(Value())
    }
  }

  /** Quantifiers, id, message and properties never change an anchor's output. */
  lemma AnchorIgnoresQuantifiers(a: AnchorPattern, b: AnchorPattern)
    requires a.value == b.value
    ensures a.ToRegex() == b.ToRegex()
  {
  }

  /** `new AnchorPattern(PatternValue, quantifiers)` with a name, then compiled: the token, whatever the quantifier. */
  method NameThenCompile(id: string, name: string, q: Option<Q.Quantifier>, anchors: Table, codec: Codec)
    returns (r: Result<string>)
    requires WellFormed(anchors) && IsName(anchors, name)
    ensures r == Ok(Lookup(anchors, name).value)
  {
    assert Values.ToRegex(Str(name)) == Ok(name);
    assert AsString(Str(name)) == Ok(name);
    NameStoresToken(anchors, codec, Str(name), name);
    var a := new AnchorPattern(id);
    var outcome := a.SetValue(Str(name), anchors, codec);
    a.quantifiers := q;
    r := a.ToRegex();
  }
}
