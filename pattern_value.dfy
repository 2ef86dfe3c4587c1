/**
 * `PatternValue`: a wrapper whose `dynamic` content is a string, another
 * `PatternValue`, or null. Resolving it (`ToString`, `ToRegex`, the
 * implicit conversion to `string`) unwraps nested values down to the
 * innermost string; the string constructor sniffs its argument and may
 * hand it to a JSON or YAML decoder first.
 */
module Values {
  import opened Wrappers
  import opened Text
  import Formats

  /** The content of `Value`: null, a string, or another `PatternValue`. */
  datatype PatternValue = Unset | Str(text: string) | Nested(inner: PatternValue)

  /**
   * The two decoders the string constructor may call. Each yields the
   * decoded object (`None` when the decoder returns null) or the exception
   * it raises; what they accept is not part of this model.
   */
  datatype Codec = Codec(
    json: string -> Result<Option<PatternValue>>,
    yaml: string -> Result<Option<PatternValue>>)

  /** The value at the bottom of the chain of nested wrappers. */
  function Innermost(v: PatternValue): (b: PatternValue)
    ensures !b.Nested?
  {
    match v
    case Nested(i) => Innermost(i)
    case _ => v
  }

  /** `k` wrappers around `base`. */
  function Wrap(k: nat, base: PatternValue): PatternValue
    decreases k
  {
    if k == 0 then base else Nested(Wrap(k - 1, base))
  }

  /** `PatternValue.ToRegex()`: the innermost string; a null innermost value throws, because `ToString` is bound at run time on null. */
  function ToRegex(v: PatternValue): (r: Result<string>)
    ensures r.Ok? <==> Innermost(v).Str?
    ensures r.Ok? ==> r.value == Innermost(v).text
    ensures r.Err? ==> r.error == RuntimeBinderException
  {
    match v
    case Unset => Err(RuntimeBinderException)
    case Str(t) => Ok(t)
    case Nested(i) => ToRegex(i)
  }

  /** `PatternValue.ToString()`: unwraps a nested value through its own `ToString`, otherwise renders `Value`. */
  function ToString(v: PatternValue): (r: Result<string>)
    ensures r.Ok? ==> Innermost(v) == Str(r.value)
  {
    match v
    case Unset => Err(RuntimeBinderException)
    case Str(t) => Ok(t)
    case Nested(i) => ToString(i)
  }

  /** `ToString` resolves exactly as `ToRegex` does, at every depth of nesting. */
  lemma {:induction false} ToStringAgreesWithToRegex(v: PatternValue)
    ensures ToString(v) == ToRegex(v)
  {
    match v
    case Unset =>
    case Str(_) =>
    case Nested(i) => ToStringAgreesWithToRegex(i);
  }

  /** However deeply a string is wrapped, it resolves to itself. */
  lemma {:induction false} WrappedResolves(k: nat, s: string)
    ensures ToRegex(Wrap(k, Str(s))) == Ok(s)
    ensures ToString(Wrap(k, Str(s))) == Ok(s)
    decreases k
  {
    if k > 0 {
      WrappedResolves(k - 1, s);
    }
  }

  /** The implicit conversion to `string`: `""` when `Value` is null, otherwise `Value.ToString()`. */
  function AsString(v: PatternValue): (r: Result<string>)
    ensures v.Unset? ==> r == Ok("")
    ensures !v.Unset? ==> r == ToRegex(v)
  {
    ToStringAgreesWithToRegex(v);
    if v.Unset? then Ok("") else ToString(v)
  }

  /** The default constructor leaves `Value` null. */
  const Default: PatternValue := Unset

  /** A default value converts to `""` but cannot be resolved: `ToRegex` and `ToString` throw. */
  lemma DefaultValue()
    ensures AsString(Default) == Ok("")
    ensures ToRegex(Default).Err? && ToString(Default).Err?
  {
  }

  /** The `dynamic` constructor stores its argument as is: null stays null, an object is wrapped. */
  function FromObject(o: Option<PatternValue>): (v: PatternValue)
    ensures o.None? ==> ToRegex(v).Err?
    ensures o.Some? ==> ToRegex(v) == ToRegex(o.value) && Innermost(v) == Innermost(o.value)
  {
    if o.None? then Unset else Nested(o.value)
  }

  /**
   * What an object-text constructor of a node does with its text: assign a
   * value through the `Value` setter, hand the text to a decoder, or leave
   * the node as it was.
   */
  datatype Construction = Assigned(value: PatternValue) | Decoding(format: Formats.Format) | Untouched

  /** Text the string constructor stores verbatim: not `{...}`-shaped and without `Value:`. */
  predicate Plain(s: string) {
    !Formats.IsJson(s) && !Contains(s, "Value:")
  }

  /** `Value ?? string.Empty` applied to a decoded object. */
  function OrEmpty(d: PatternValue): (v: PatternValue)
    ensures !v.Unset?
    ensures d.Unset? ==> v == Str("")
    ensures !d.Unset? ==> v == d
  {
    if d.Unset? then Str("") else d
  }

  /** Hands `s` to a decoder: its exception propagates, a null result is dereferenced, a null `Value` becomes `""`. */
  function Decoded(r: Result<Option<PatternValue>>): (v: Result<PatternValue>)
    ensures v.Ok? ==> !v.value.Unset?
    ensures v.Err? <==> (r.Err? || r.value.None?)
  {
    match r
    case Err(e) => Err(e)
    case Ok(None) => Err(NullReferenceException)
    case Ok(Some(d)) => Ok(OrEmpty(d))
  }

  /**
   * The string constructor: null becomes `""`; `{...}` goes to the JSON
   * decoder; otherwise text containing `Value:` goes to the YAML decoder;
   * anything else is stored verbatim.
   */
  function FromString(s: Option<string>, codec: Codec): (r: Result<PatternValue>)
    ensures s.None? ==> r == Ok(Str(""))
    ensures s.Some? && Plain(s.value) ==> r == Ok(Str(s.value))
    ensures s.Some? && Formats.IsJson(s.value) ==> r == Decoded(codec.json(s.value))
    ensures s.Some? && !Formats.IsJson(s.value) && Contains(s.value, "Value:") ==> r == Decoded(codec.yaml(s.value))
    ensures r.Ok? ==> !r.value.Unset?
  {
    if s.None? then Ok(Str(""))
    else if |s.value| > 0 && s.value[0] == '{' && s.value[|s.value| - 1] == '}' then
      assert Formats.IsJson(s.value) by {
        assert s.value[|s.value| - 1..] == "}";
      }
      Decoded(codec.json(s.value))
    else if Contains(s.value, "Value:") then
      Decoded(codec.yaml(s.value))
    else
      Ok(Str(s.value))
  }

  /** Plain text round-trips: it is stored as given and resolves, converts and prints as itself. */
  lemma PlainRoundTrip(s: string, codec: Codec)
    requires Plain(s)
    ensures FromString(Some(s), codec).Ok?
    ensures ToRegex(FromString(Some(s), codec).value) == Ok(s)
    ensures ToString(FromString(Some(s), codec).value) == Ok(s)
    ensures AsString(FromString(Some(s), codec).value) == Ok(s)
  {
  }

  /** The constructor examples of the unit tests; the YAML one holds for a decoder that reads `Value: test` as `test`. */
  lemma ConstructorExamples(codec: Codec)
    requires codec.yaml("Value: test") == Ok(Some(Str("test")))
    ensures FromString(None, codec) == Ok(Str(""))
    ensures FromString(Some(""), codec) == Ok(Str(""))
    ensures FromString(Some("test"), codec) == Ok(Str("test"))
    ensures FromString(Some("Value: test"), codec) == Ok(Str("test"))
    ensures ToRegex(Nested(Str("inner value"))) == Ok("inner value")
    ensures ToRegex(Str("test value")) == Ok("test value")
  {
    ContainsAt("Value: test", "Value:", 0);
    assert !Contains("test", "Value:") by {
      assert !Contains("", "Value:");
      assert !Contains("t", "Value:");
      assert !Contains("st", "Value:");
      assert !Contains("est", "Value:");
    }
    assert !Contains("", "Value:");
  }
}
