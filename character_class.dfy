/**
 * `CharacterClassPattern`: a node whose `Value` setter accepts a class name
 * of FluentRegex's `CharacterClasses` table, one of its tokens, or a custom
 * `[...]` class. Tokens and custom classes are kept as given, names are
 * replaced by their token. Its `Type` is fixed; its `ToRegex` is the stored
 * value followed by the quantifier suffix.
 * `IsValidCharacterClassType` is `FluentRegex.IsName` over the classes table.
 */
module CharacterClasses {
  import opened Wrappers
  import opened Text
  import opened Formats
  import opened Values
  import opened FluentRegex
  import Q = Quantifiers
  import Patterns
  import opened Properties

  /** The `Type` every character class reports. */
  const CharacterClassType := "CharacterClass"

  /** `IsCustomCharacterClass`: starts with `[` and ends with `]` (the regex test beside it never fails). */
  function IsCustomCharacterClass(s: string): (b: bool)
    ensures b <==> |s| >= 2 && s[0] == '[' && s[|s| - 1] == ']'
  {
    EndsWithChar(s, ']');
    assert StartsWith(s, "[") <==> |s| >= 1 && s[0] == '[' by {
      if |s| >= 1 {
        assert s[..1] == [s[0]];
      }
    }
    StartsWith(s, "[") && EndsWith(s, "]")
  }

  /** `IsValidCharacterClass`: a token of the table or a custom class. */
  predicate IsValidCharacterClass(classes: Table, s: string) {
    IsToken(classes, s) || IsCustomCharacterClass(s)
  }

  /** The class's own `IsValidPatternType`, which lists `CharacterClass` twice and `Anchor` never. */
  function IsValidPatternType(t: string): (b: bool)
    ensures b <==> Patterns.IsValidPatternType(t) && t != "Anchor"
  {
    t == "Literal" || t == "CharacterClass" || t == "CharacterClass" || t == "Group"
  }

  /**
   * What `GetCharacterClass` returns or throws: a name gives the token of
   * its field; when that is blank (or `s` is not a name) a token gives
   * itself; whatever is still blank throws.
   */
  function Resolve(classes: Table, s: string): (r: Result<string>)
    ensures r.Err? ==> r.error == ArgumentException
    ensures r.Ok? ==> !IsBlank(r.value)
    ensures r.Ok? ==> (IsName(classes, s) && Lookup(classes, s) == Some(r.value)) || (IsToken(classes, s) && r.value == s)
    ensures !IsName(classes, s) && !IsToken(classes, s) ==> r == Err(ArgumentException)
  {
    var byName := if IsName(classes, s) then Lookup(classes, s) else None;
    var found := if IsNullOrWhiteSpace(byName) && IsToken(classes, s) then Some(s) else byName;
    if IsNullOrWhiteSpace(found) then Err(ArgumentException) else Ok(found.value)
  }

  /** `GetCharacterClass(value)`: the local starts null and is reassigned by the two lookups in turn. */
  method GetCharacterClass(classes: Table, value: string) returns (r: Result<string>)
    ensures r == Resolve(classes, value)
  {
    var characterClass: Option<string> := None;
    if IsName(classes, value) {
      characterClass := Lookup(classes, value);
    }
    if IsNullOrWhiteSpace(characterClass) {
      if IsToken(classes, value) {
        characterClass := Some(value);
      }
    }
    if IsNullOrWhiteSpace(characterClass) {
      return Err(ArgumentException);
    }
    return Ok(characterClass.value);
  }

  /** With a well-formed table, a name resolves to its token and a token to itself. */
  lemma ResolveWellFormed(classes: Table, s: string)
    requires WellFormed(classes)
    ensures IsName(classes, s) ==> Resolve(classes, s) == Ok(Lookup(classes, s).value)
    ensures IsToken(classes, s) ==> Resolve(classes, s) == Ok(s)
  {
    if IsName(classes, s) {
      LookupIsToken(classes, s);
    }
    if IsToken(classes, s) {
      TokenIsNotName(classes, s);
    }
  }

  /**
   * What the `Value` setter stores, or what it throws. The argument is
   * converted to a string; a token or custom class goes to the
   * `PatternValue` string constructor as it is, a name after `GetCharacterClass`.
   */
  function Normalized(classes: Table, codec: Codec, v: PatternValue): (r: Result<PatternValue>)
    ensures AsString(v).Err? ==> r == Err(AsString(v).error)
    ensures AsString(v).Ok? && !IsName(classes, AsString(v).value) && !IsValidCharacterClass(classes, AsString(v).value) ==>
      r == Err(ArgumentException)
    ensures AsString(v).Ok? && IsValidCharacterClass(classes, AsString(v).value) ==>
      r == FromString(Some(AsString(v).value), codec)
  {
    match AsString(v)
    case Err(e) => Err(e)
    case Ok(s) =>
      if !(IsName(classes, s) || IsValidCharacterClass(classes, s)) then Err(ArgumentException)
      else if IsValidCharacterClass(classes, s) then FromString(Some(s), codec)
      else
        match Resolve(classes, s)
        case Err(e) => Err(e)
        case Ok(token) => FromString(Some(token), codec)
  }

  /** With a well-formed table, a name is stored as its token. */
  lemma NameStored(classes: Table, codec: Codec, v: PatternValue, s: string)
    requires WellFormed(classes) && AsString(v) == Ok(s) && IsName(classes, s)
    ensures Normalized(classes, codec, v) == Ok(Str(Lookup(classes, s).value))
  {
    var t := Lookup(classes, s).value;
    LookupIsToken(classes, s);
    ResolveWellFormed(classes, s);
    var i :| 0 <= i < |classes| && classes[i].name == s;
    assert IsIdentifierChar(s[0]);
    assert !IsCustomCharacterClass(s);
    assert !IsToken(classes, s);
    assert Normalized(classes, codec, v) == FromString(Some(t), codec);
    assert FromString(Some(t), codec) == Ok(Str(t));
  }

  /** With a well-formed table, a token is stored verbatim. */
  lemma TokenStored(classes: Table, codec: Codec, v: PatternValue, s: string)
    requires WellFormed(classes) && AsString(v) == Ok(s) && IsToken(classes, s)
    ensures Normalized(classes, codec, v) == Ok(Str(s))
  {
    TokenIsNotName(classes, s);
  }

  /** A custom class is stored verbatim unless it looks like YAML or JSON to the `PatternValue` constructor. */
  lemma CustomStoredVerbatim(classes: Table, codec: Codec, s: string)
    requires IsCustomCharacterClass(s) && Plain(s)
    ensures Normalized(classes, codec, Str(s)) == Ok(Str(s))
    ensures Values.ToRegex(Normalized(classes, codec, Str(s)).value) == Ok(s)
  {
  }

  /**
   * A custom class containing `Value:` is not stored: the `PatternValue`
   * string constructor hands it to the YAML decoder instead.
   */
  lemma CustomWithValueKeyIsDecoded(classes: Table, codec: Codec)
    ensures Normalized(classes, codec, Str("[Value:]")) == Decoded(codec.yaml("[Value:]"))
  {
    ContainsAt("[Value:]", "Value:", 1);
    assert IsCustomCharacterClass("[Value:]");
    assert !IsJson("[Value:]");
  }

  /** Re-assigning what the setter stored stores the same value again. */
  lemma NormalizedIdempotent(classes: Table, codec: Codec, v: PatternValue)
    requires WellFormed(classes) && Normalized(classes, codec, v).Ok?
    requires IsCustomCharacterClass(AsString(v).value) ==> Plain(AsString(v).value)
    ensures Normalized(classes, codec, Normalized(classes, codec, v).value) == Normalized(classes, codec, v)
  {
    var s := AsString(v).value;
    if IsToken(classes, s) {
      TokenStored(classes, codec, v, s);
      TokenStored(classes, codec, Str(s), s);
    } else if IsCustomCharacterClass(s) {
      CustomStoredVerbatim(classes, codec, s);
    } else {
      NameStored(classes, codec, v, s);
      LookupIsToken(classes, s);
      var t := Lookup(classes, s).value;
      TokenStored(classes, codec, Str(t), t);
    }
  }

  /**
   * The object-text constructor: text with a leading `\` must be a token
   * (resolved and assigned), a name is assigned, blank text assigns an empty
   * value; otherwise JSON text goes to the JSON decoder, else YAML-shaped
   * text to the YAML decoder, else it throws.
   */
  function ObjectText(text: Option<string>, classes: Table, codec: Codec): (r: Result<Construction>)
    ensures text.None? ==> r == Err(NullReferenceException)
    ensures text.Some? && StartsWith(text.value, "\\") && !IsValidCharacterClass(classes, text.value) ==>
      r == Err(ArgumentException)
    ensures text.Some? && !StartsWith(text.value, "\\") && !IsName(classes, text.value) && !IsBlank(text.value) ==>
      r == (if IsJson(text.value) then Ok(Decoding(Json))
            else if IsYaml(text.value) then Ok(Decoding(Yaml))
            else Err(ArgumentException))
    ensures r.Ok? && r.value.Assigned? ==> exists w :: Normalized(classes, codec, w) == Ok(r.value.value)
  {
    if text.None? then Err(NullReferenceException)
    else
      var s := text.value;
      if StartsWith(s, "\\") then
        if !IsValidCharacterClass(classes, s) then Err(ArgumentException)
        else
          match Resolve(classes, s)
          case Err(e) => Err(e)
          case Ok(token) => Assign(FromString(Some(token), codec), classes, codec)
      else if IsName(classes, s) then Assign(FromString(Some(s), codec), classes, codec)
      else if IsBlank(s) then Assign(Ok(Str("")), classes, codec)
      else if IsJson(s) then Ok(Decoding(Json))
      else if IsYaml(s) then Ok(Decoding(Yaml))
      else Err(ArgumentException)
  }

  /** `Value = new PatternValue(...)`: a failed construction or a rejected value throws. */
  function Assign(constructed: Result<PatternValue>, classes: Table, codec: Codec): (r: Result<Construction>)
    ensures r.Ok? ==> constructed.Ok? && Normalized(classes, codec, constructed.value).Ok? && r == Ok(Assigned(Normalized(classes, codec, constructed.value).value))
  {
    match constructed
    case Err(e) => Err(e)
    case Ok(v) =>
      match Normalized(classes, codec, v)
      case Err(e) => Err(e)
      case Ok(w) => Ok(Assigned(w))
  }

  /** A text that starts with `\` has `\` as its first character. */
  lemma BackslashFirst(s: string)
    requires StartsWith(s, "\\")
    ensures |s| > 0 && s[0] == '\\'
  {
    assert s[..1][0] == s[0];
  }

  /** With a well-formed table, a name given as object text is assigned as its token. */
  lemma ObjectTextName(classes: Table, codec: Codec, s: string)
    requires WellFormed(classes) && IsName(classes, s)
    ensures ObjectText(Some(s), classes, codec) == Ok(Assigned(Str(Lookup(classes, s).value)))
  {
    var i :| 0 <= i < |classes| && classes[i].name == s;
    assert IsIdentifierChar(s[0]);
    if StartsWith(s, "\\") {
      BackslashFirst(s);
    }
    NameStored(classes, codec, Str(s), s);
  }

  /** With a well-formed table, a token starting with `\` given as object text is assigned as itself. */
  lemma ObjectTextToken(classes: Table, codec: Codec, s: string)
    requires WellFormed(classes) && IsToken(classes, s) && StartsWith(s, "\\")
    ensures ObjectText(Some(s), classes, codec) == Ok(Assigned(Str(s)))
  {
    TokenIsNotName(classes, s);
    ResolveWellFormed(classes, s);
    TokenStored(classes, codec, Str(s), s);
  }

  /** With a well-formed table, blank object text throws: the empty value is neither a name nor a class. */
  lemma ObjectTextBlank(classes: Table, codec: Codec, s: string)
    requires WellFormed(classes) && IsBlank(s)
    ensures ObjectText(Some(s), classes, codec) == Err(ArgumentException)
  {
    if StartsWith(s, "\\") {
      BackslashFirst(s);
      assert IsWhiteSpace(s[0]);
    }
    BlankIsNothing(classes, s);
    BlankIsNothing(classes, "");
  }

  /** With a well-formed table: a name or a `\`-token is assigned as its token, and blank text throws. */
  lemma ObjectTextWellFormed(classes: Table, codec: Codec, s: string)
    requires WellFormed(classes)
    ensures IsName(classes, s) ==> ObjectText(Some(s), classes, codec) == Ok(Assigned(Str(Lookup(classes, s).value)))
    ensures IsToken(classes, s) && StartsWith(s, "\\") ==> ObjectText(Some(s), classes, codec) == Ok(Assigned(Str(s)))
    ensures IsBlank(s) ==> ObjectText(Some(s), classes, codec) == Err(ArgumentException)
  {
    if IsName(classes, s) {
      ObjectTextName(classes, codec, s);
    }
    if IsToken(classes, s) && StartsWith(s, "\\") {
      ObjectTextToken(classes, codec, s);
    }
    if IsBlank(s) {
      ObjectTextBlank(classes, codec, s);
    }
  }

  class CharacterClassPattern {
    var id: Option<string>
    var value: PatternValue
    var quantifiers: Option<Q.Quantifier>
    var message: Option<string>
    var properties: Option<PatternProperties>

    /** `new CharacterClassPattern()`: an empty value; `id` stands for the generated Guid. */
    constructor (id: string)
      ensures this.id == Some(id) && value == Str("") && quantifiers.None? && message.None? && properties.None?
    {
      this.id := Some(id);
      value := Str("");
      quantifiers := None;
      message := None;
      properties := None;
    }

    /** The `Type` setter discards what it is given: the type stays `CharacterClass`. */
    method SetType(t: string)
      ensures unchanged(this)
    {
    }

    /** The `Value` setter: stores the normalised value, or throws and keeps the old one. */
    method SetValue(v: PatternValue, classes: Table, codec: Codec) returns (r: Result<()>)
      modifies this`value
      ensures Normalized(classes, codec, v).Ok? ==> r == Ok(()) && value == Normalized(classes, codec, v).value
      ensures Normalized(classes, codec, v).Err? ==> r == Err(Normalized(classes, codec, v).error) && value == old(value)
    {
      var s := AsString(v);
      if s.Err? {
        return Err(s.error);
      }
      if !(IsName(classes, s.value) || IsValidCharacterClass(classes, s.value)) {
        return Err(ArgumentException);
      }
      var text := s.value;
      if !IsValidCharacterClass(classes, s.value) {
        var resolved := GetCharacterClass(classes, s.value);
        match resolved
        case Err(e) => return Err(e);
        case Ok(t) => text := t;
      }
      var stored := FromString(Some(text), codec);
      if stored.Err? {
        return Err(stored.error);
      }
      value := stored.value;
      return Ok(());
    }

    /**
     * `CharacterClassPattern.ToRegex()`: `Value.ToString()` followed by the
     * quantifier's suffix, which is computed for an empty preceding fragment.
     */
    function ToRegex(): (r: Result<string>)
      reads this
      ensures r == Append(Values.ToRegex(value), Patterns.Suffix(quantifiers))
      ensures quantifiers.None? && value.Str? ==> r == Ok(value.text)
    {
      ToStringAgreesWithToRegex(value);
      assert value.Str? ==> value.text + "" == value.text;
      Append(Values.ToString(value), Patterns.Suffix(quantifiers))
    }
  }

  /** Whatever the setter accepted from a well-formed table, without a quantifier, compiles to a token or a custom class. */
  lemma AcceptedCompilesToClass(c: CharacterClassPattern, classes: Table, codec: Codec, v: PatternValue)
    requires WellFormed(classes) && c.quantifiers.None?
    requires Normalized(classes, codec, v) == Ok(c.value)
    requires IsCustomCharacterClass(AsString(v).value) ==> Plain(AsString(v).value)
    ensures c.ToRegex().Ok? && IsValidCharacterClass(classes, c.ToRegex().value)
  {
    var s := AsString(v).value;
    if IsToken(classes, s) {
      TokenStored(classes, codec, v, s);
    } else if !IsCustomCharacterClass(s) {
      NameStored(classes, codec, v, s);
      LookupIsToken(classes, s);
    }
  }

  /** The quantifier sees `""`, not the stored class: a greedy-only quantifier adds `*` after any class. */
  lemma GreedyAfterAnyClass(c: CharacterClassPattern, s: string)
    requires c.value == Str(s)
    requires c.quantifiers == Some(Q.Quantifier(None, None, None, None, Some(true)))
    ensures c.ToRegex() == Ok(s + "*")
  {
    Q.TrailingQuantifier("");
    assert "" + "*" + "" == "*";
  }

  /** `new CharacterClassPattern(PatternValue, quantifiers)`: the setter runs, then the quantifier is stored. */
  method Create(id: string, v: PatternValue, q: Option<Q.Quantifier>, classes: Table, codec: Codec)
    returns (r: Result<CharacterClassPattern>)
    ensures r.Ok? <==> Normalized(classes, codec, v).Ok?
    ensures r.Err? ==> r.error == Normalized(classes, codec, v).error
    ensures r.Ok? ==> fresh(r.value) && r.value.value == Normalized(classes, codec, v).value && r.value.quantifiers == q
  {
    var c := new CharacterClassPattern(id);
    var outcome := c.SetValue(v, classes, codec);
    if outcome.Err? {
      return Err(outcome.error);
    }
    c.quantifiers := q;
    return Ok(c);
  }
}
