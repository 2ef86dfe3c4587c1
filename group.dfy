/**
 * `GroupPattern`: a list of child `Pattern`s compiled one after another
 * into a FluentRegex group, wrapped according to `Properties.GroupType`,
 * then quantified through the group builder's own calls (`Times`, `Lazy`
 * and a literal `*`) rather than through `Quantifier.ToRegex`.
 */
module Groups {
  import opened Wrappers
  import opened Text
  import opened Formats
  import opened Values
  import opened FluentRegex
  import Q = Quantifiers
  import opened Properties
  import opened Patterns
  import CharacterClasses

  /** What `ToString()` returns for a group (it is not overridden): the type's full name. */
  const GroupTypeName := "ConfigToRegex.GroupPattern"

  /** An `Anchor` child's text: a name is appended as an anchor call, a token verbatim, anything else not at all. */
  function AnchorText(lib: Library, s: string): string {
    if IsName(lib.anchors, s) then lib.anchorCall(s)
    else if IsToken(lib.anchors, s) then s
    else ""
  }

  /** A `CharacterClass` child's text: a token or custom class verbatim, a name as a class call, anything else not at all. */
  function ClassText(lib: Library, s: string): string {
    if CharacterClasses.IsValidCharacterClass(lib.classes, s) || CharacterClasses.IsCustomCharacterClass(s) then s
    else if IsName(lib.classes, s) then lib.classCall(s)
    else ""
  }

  /**
   * `ProcessPattern`: what one child appends to the group, dispatched on its
   * `Type`. `Literal` and `Group` children compile themselves (quantifier
   * included); `Anchor` and `CharacterClass` children contribute their
   * resolved value only; any other type compiles itself and a failure is
   * reported as an invalid type.
   */
  function ProcessPattern(lib: Library, p: Pattern): (r: Result<string>)
    reads p
    ensures p.patternType == "Literal" || p.patternType == "Group" ==> r == p.ToRegex()
    ensures (p.patternType == "Anchor" || p.patternType == "CharacterClass") && p.value.None? ==>
      r == Err(NullReferenceException)
    ensures (p.patternType == "Anchor" || p.patternType == "CharacterClass") && p.value.Some? ==>
      (r.Err? <==> Values.ToRegex(p.value.value).Err?)
    ensures p.patternType == "Anchor" && p.value.Some? && Values.ToRegex(p.value.value).Ok? ==>
      r == Ok(AnchorText(lib, Values.ToRegex(p.value.value).value))
    ensures p.patternType == "CharacterClass" && p.value.Some? && Values.ToRegex(p.value.value).Ok? ==>
      r == Ok(ClassText(lib, Values.ToRegex(p.value.value).value))
    ensures !IsValidPatternType(p.patternType) ==> (r.Err? <==> p.ToRegex().Err?)
    ensures !IsValidPatternType(p.patternType) && r.Err? ==> r.error == ArgumentException
  {
    if p.patternType == "Literal" then p.ToRegex()
    else if p.patternType == "Anchor" then
      if p.value.None? then Err(NullReferenceException)
      else
        match Values.ToRegex(p.value.value)
        case Err(e) => Err(e)
        case Ok(s) => Ok(AnchorText(lib, s))
    else if p.patternType == "CharacterClass" then
      if p.value.None? then Err(NullReferenceException)
      else
        match Values.ToRegex(p.value.value)
        case Err(e) => Err(e)
        case Ok(s) => Ok(ClassText(lib, s))
    else if p.patternType == "Group" then p.ToRegex()
    else if p.ToRegex().Err? then Err(ArgumentException)
    else p.ToRegex()
  }

  /** The group body: every child's contribution, in list order, with nothing between them; the first failure wins. */
  function Body(lib: Library, ps: seq<Pattern>): Result<string>
    reads set i | 0 <= i < |ps| :: ps[i]
    decreases |ps|
  {
    if |ps| == 0 then Ok("")
    else Append(Body(lib, ps[..|ps| - 1]), ProcessPattern(lib, ps[|ps| - 1]))
  }

  /** Appending in a builder is associative, failures included. */
  lemma AppendAssociative(a: Result<string>, b: Result<string>, c: Result<string>)
    ensures Append(Append(a, b), c) == Append(a, Append(b, c))
  {
    if a.Ok? && b.Ok? && c.Ok? {
      assert a.value + b.value + c.value == a.value + (b.value + c.value);
    }
  }

  /** The body of two lists joined is the two bodies joined. */
  lemma {:induction false} BodyConcat(lib: Library, xs: seq<Pattern>, ys: seq<Pattern>)
    ensures Body(lib, xs + ys) == Append(Body(lib, xs), Body(lib, ys))
    decreases |ys|
  {
    if |ys| == 0 {
      assert xs + ys == xs;
      if Body(lib, xs).Ok? {
        assert Body(lib, xs).value + "" == Body(lib, xs).value;
      }
    } else {
      var zs := xs + ys;
      assert zs[..|zs| - 1] == xs + ys[..|ys| - 1];
      assert zs[|zs| - 1] == ys[|ys| - 1];
      BodyConcat(lib, xs, ys[..|ys| - 1]);
      AppendAssociative(Body(lib, xs), Body(lib, ys[..|ys| - 1]), ProcessPattern(lib, ys[|ys| - 1]));
    }
  }

  /** The body is produced exactly when every child compiles. */
  lemma {:induction false} BodyOkIff(lib: Library, ps: seq<Pattern>)
    ensures Body(lib, ps).Ok? <==> forall i :: 0 <= i < |ps| ==> ProcessPattern(lib, ps[i]).Ok?
    decreases |ps|
  {
    if |ps| > 0 {
      var init := ps[..|ps| - 1];
      BodyOkIff(lib, init);
      assert forall i :: 0 <= i < |init| ==> init[i] == ps[i];
    }
  }

  /** A one-child body is that child's contribution. */
  lemma BodyOfOne(lib: Library, p: Pattern)
    ensures Body(lib, [p]) == ProcessPattern(lib, p)
  {
    assert [p][..0] == [];
    if ProcessPattern(lib, p).Ok? {
      assert "" + ProcessPattern(lib, p).value == ProcessPattern(lib, p).value;
    }
  }

  /** A child that fails after children that compiled stops the group with its own error. */
  lemma FirstFailureStops(lib: Library, ps: seq<Pattern>, i: nat)
    requires i < |ps| && Body(lib, ps[..i]).Ok? && ProcessPattern(lib, ps[i]).Err?
    ensures Body(lib, ps) == ProcessPattern(lib, ps[i])
  {
    assert ps[..i + 1][..i] == ps[..i];
    assert ps == ps[..i + 1] + ps[i + 1..];
    BodyConcat(lib, ps[..i + 1], ps[i + 1..]);
  }

  /**
   * The text the group builder appends after the wrapped body:
   * `Times(min, max)`, `Times(min)` or `Times(0, max)` by which bounds are
   * set, then `Lazy()`, then `*` when `CanBeGreedy` holds for the group's
   * type name. `Exactly` is never read except through `CanBeGreedy`.
   */
  function GroupSuffix(lib: Library, q: Option<Q.Quantifier>): string {
    if q.None? then ""
    else
      var qv := q.value;
      var times :=
        if qv.min.Some? && qv.max.Some? then lib.times(qv.min.value, qv.max.value)
        else if qv.min.Some? then lib.timesExactly(qv.min.value)
        else if qv.max.Some? then lib.times(0, qv.max.value)
        else "";
      var lazy := if qv.lazy == Some(true) then lib.lazy else "";
      var greedy := if Q.CanBeGreedy(qv, GroupTypeName) then "*" else "";
      times + lazy + greedy
  }

  /** The group wrapped round `body`: a named group (angle brackets) for `NamedCapturing`, a typed group otherwise. */
  function Wrapped(lib: Library, props: PatternProperties, body: string): string
    requires props.groupType.Some?
  {
    if props.groupType.value != "NamedCapturing" then lib.group(props.groupType.value, body)
    else lib.namedGroup(props.name, body)
  }

  /**
   * The whole of `GroupPattern.ToRegex()`: null `Properties` fails on
   * dereference, a null `GroupType` fails in `Enum.Parse` with
   * `ArgumentNullException`, an unknown one with `ArgumentException`, all
   * before any child is looked at; then the body, the wrap and the suffix.
   */
  function Compile(lib: Library, props: Option<PatternProperties>, ps: seq<Pattern>, q: Option<Q.Quantifier>): (r: Result<string>)
    reads set i | 0 <= i < |ps| :: ps[i]
    ensures props.None? ==> r == Err(NullReferenceException)
    ensures props.Some? && props.value.groupType.None? ==> r == Err(ArgumentNullException)
    ensures props.Some? && props.value.groupType.Some? && !lib.isGroupType(props.value.groupType.value) ==>
      r == Err(ArgumentException)
    ensures props.Some? && props.value.groupType.Some? && lib.isGroupType(props.value.groupType.value) ==>
      (r.Ok? <==> Body(lib, ps).Ok?)
  {
    if props.None? then Err(NullReferenceException)
    else if props.value.groupType.None? then Err(ArgumentNullException)
    else if !lib.isGroupType(props.value.groupType.value) then Err(ArgumentException)
    else
      match Body(lib, ps)
      case Err(e) => Err(e)
      case Ok(body) => Ok(Wrapped(lib, props.value, body) + GroupSuffix(lib, q))
  }

  /** What the object-text constructor does with its text: reset the group, or run decoders in this order. */
  datatype Route = Reset | Decode(formats: seq<Format>)

  /**
   * The object-text constructor: null or blank text resets the group;
   * otherwise JSON text is decoded as JSON and then (not else) YAML-shaped
   * text as YAML, so text can be decoded twice.
   */
  function TextRoute(text: Option<string>): (r: Route)
    ensures IsNullOrWhiteSpace(text) <==> r == Reset
    ensures r.Decode? ==> (Json in r.formats <==> IsJson(text.value)) && (Yaml in r.formats <==> IsYaml(text.value))
    ensures r.Decode? && |r.formats| == 2 ==> r.formats == [Json, Yaml]
  {
    if IsNullOrWhiteSpace(text) then Reset
    else
      Decode((if IsJson(text.value) then [Json] else []) + (if IsYaml(text.value) then [Yaml] else []))
  }

  /** `{a: b}` is both JSON- and YAML-shaped: the constructor decodes it twice. */
  lemma BraceColonDecodedTwice()
    ensures TextRoute(Some("{a: b}")) == Decode([Json, Yaml])
  {
    assert !IsWhiteSpace("{a: b}"[0]);
    assert StartsWith("{a: b}", "{") by {
      assert "{a: b}"[..1] == "{";
    }
    assert EndsWith("{a: b}", "}") by {
      assert "{a: b}"[5..] == "}";
    }
    IsYamlIffColon("{a: b}");
    assert "{a: b}"[2] == ':';
  }

  class GroupPattern {
    var id: Option<string>
    var patternType: string
    var quantifiers: Option<Q.Quantifier>
    var position: int
    var patterns: seq<Pattern>
    var message: Option<string>
    var properties: Option<PatternProperties>

    /** `new GroupPattern()`: no children, default properties, no quantifier; `id` stands for the generated Guid. */
    constructor (id: string)
      ensures this.id == Some(id) && patternType == "Group" && quantifiers.None? && position == 0
      ensures patterns == [] && message.None? && properties == Some(Properties.Default)
    {
      this.id := Some(id);
      patternType := "Group";
      quantifiers := None;
      position := 0;
      patterns := [];
      message := None;
      properties := Some(Properties.Default);
    }

    /** `new GroupPattern(text)` with null or blank text: the reset branch, which sets an all-null quantifier. */
    constructor Blank(id: string)
      ensures this.id == Some(id) && patternType == "Group" && quantifiers == Some(Q.Empty) && position == 0
      ensures patterns == [] && message.None? && properties == Some(Properties.Default)
    {
      this.id := Some(id);
      patternType := "Group";
      quantifiers := Some(Q.Empty);
      position := 0;
      patterns := [];
      message := None;
      properties := Some(Properties.Default);
    }

    /** `GroupPattern.ToRegex()`: parse the group type, process every child in order, build, then quantify. */
    method ToRegex(lib: Library) returns (r: Result<string>)
      ensures r == Compile(lib, properties, patterns, quantifiers)
    {
      if properties.None? {
        return Err(NullReferenceException);
      }
      var props := properties.value;
      if props.groupType.None? {
        return Err(ArgumentNullException);
      }
      if !lib.isGroupType(props.groupType.value) {
        return Err(ArgumentException);
      }
      var body := "";
      var i := 0;
      while i < |patterns|
        invariant 0 <= i <= |patterns|
        invariant Body(lib, patterns[..i]) == Ok(body)
      {
        var piece := ProcessPattern(lib, patterns[i]);
        if piece.Err? {
          FirstFailureStops(lib, patterns, i);
          return Err(piece.error);
        }
        assert patterns[..i + 1][..i] == patterns[..i];
        body := body + piece.value;
        i := i + 1;
      }
      assert patterns[..|patterns|] == patterns;
      var outRegex := Wrapped(lib, props, body);
      outRegex := outRegex + GroupSuffix(lib, quantifiers);
      return Ok(outRegex);
    }
  }

  /** The group builder outputs the unit tests fix: capturing `(..)`, named `(?<name>..)` and `Times(1, 3)` as `{1,3}`. */
  ghost predicate Pinned(lib: Library) {
    lib.isGroupType("Capturing") && lib.isGroupType("NamedCapturing")
    && (forall b :: lib.group("Capturing", b) == "(" + b + ")")
    && (forall n, b :: lib.namedGroup(Some(n), b) == "(?<" + n + ">" + b + ")")
    && lib.times(1, 3) == "{1,3}"
  }

  /** A default group throws `ArgumentNullException`: its `GroupType` is null. */
  method DefaultGroupThrows(lib: Library, id: string) returns (r: Result<string>)
    ensures r == Err(ArgumentNullException)
  {
    var g := new GroupPattern(id);
    r := g.ToRegex(lib);
  }

  /** The group from blank text throws as well: the reset keeps `GroupType` null. */
  method BlankGroupThrows(lib: Library, id: string) returns (r: Result<string>)
    ensures r == Err(ArgumentNullException)
  {
    var g := new GroupPattern.Blank(id);
    r := g.ToRegex(lib);
  }

  /** A child as the unit tests build one: a type set through the setter and a value holding a string. */
  method Child(id: string, t: string, s: string) returns (p: Pattern)
    requires IsValidPatternType(t)
    ensures fresh(p) && p.patternType == t && p.value == Some(Str(s)) && p.quantifiers.None?
  {
    p := new Pattern(id);
    var outcome := p.SetType(t);
    p.value := Some(Str(s));
  }

  /** A literal child holding non-empty text and no quantifier contributes that text. */
  lemma LiteralChild(lib: Library, p: Pattern, s: string)
    requires p.patternType == "Literal" && p.value == Some(Str(s)) && s != "" && p.quantifiers.None?
    ensures ProcessPattern(lib, p) == Ok(s)
  {
    assert s + "" == s;
  }

  /** A class child holding a custom class contributes it as it is. */
  lemma CustomClassChild(lib: Library, p: Pattern, s: string)
    requires p.patternType == "CharacterClass" && p.value == Some(Str(s)) && CharacterClasses.IsCustomCharacterClass(s)
    ensures ProcessPattern(lib, p) == Ok(s)
  {
  }

  /** The properties the unit tests give a capturing group. */
  const Capturing := PatternProperties(None, Some("Capturing"), None)

  /** One child contributing `s` to a pinned capturing group gives `(s)` and the group suffix. */
  lemma CapturingOne(lib: Library, p: Pattern, s: string, q: Option<Q.Quantifier>)
    requires Pinned(lib) && ProcessPattern(lib, p) == Ok(s)
    ensures Compile(lib, Some(Capturing), [p], q) == Ok("(" + s + ")" + GroupSuffix(lib, q))
  {
    BodyOfOne(lib, p);
  }

  /** One child contributing `s` to a pinned named group gives `(?<name>s)` and the group suffix, whatever the style. */
  lemma NamedOne(lib: Library, p: Pattern, s: string, name: string, style: Option<string>, q: Option<Q.Quantifier>)
    requires Pinned(lib) && ProcessPattern(lib, p) == Ok(s)
    ensures Compile(lib, Some(PatternProperties(Some(name), Some("NamedCapturing"), style)), [p], q)
      == Ok("(?<" + name + ">" + s + ")" + GroupSuffix(lib, q))
  {
    BodyOfOne(lib, p);
  }

  /** A fresh group with the given properties, one child and a quantifier, compiled. */
  method GroupOf(lib: Library, id: string, props: PatternProperties, p: Pattern, q: Option<Q.Quantifier>)
    returns (r: Result<string>)
    ensures r == Compile(lib, Some(props), [p], q)
  {
    var g := new GroupPattern(id);
    g.properties := Some(props);
    g.patterns := [p];
    g.quantifiers := q;
    r := g.ToRegex(lib);
  }

  /** With the pinned `Times`, `Min = 1, Max = 3` gives the group suffix `{1,3}`. */
  lemma OneToThreeSuffix(lib: Library)
    requires Pinned(lib)
    ensures GroupSuffix(lib, Some(Q.Quantifier(Some(1), Some(3), None, None, None))) == "{1,3}"
  {
    assert "{1,3}" + "" + "" == "{1,3}";
  }

  /** A class child holding `[a-z]`, as two of the unit tests build it, contributes `[a-z]`. */
  lemma LowercaseClassChild(lib: Library, c: Pattern)
    requires c.patternType == "CharacterClass" && c.value == Some(Str("[a-z]"))
    ensures ProcessPattern(lib, c) == Ok("[a-z]")
  {
    assert CharacterClasses.IsCustomCharacterClass("[a-z]");
    CustomClassChild(lib, c, "[a-z]");
  }

  /** The texts the group examples assemble, spelled out. */
  lemma ExampleTexts()
    ensures "(" + "abc" + ")" + "" == "(abc)"
    ensures "(" + "[a-z]" + ")" + "" == "([a-z])"
    ensures "(" + "hello" + ")" + "{1,3}" == "(hello){1,3}"
    ensures "(?<" + "testGroup" + ">" + "[a-z]" + ")" + "" == "(?<testGroup>[a-z])"
  {
  }

  /** The first capturing example of the unit tests: a literal child `abc` gives `(abc)`. */
  method CapturingLiteralExample(lib: Library, id: string) returns (r: Result<string>)
    requires Pinned(lib)
    ensures r == Ok("(abc)")
  {
    var p := Child(id, "Literal", "abc");
    LiteralChild(lib, p, "abc");
    CapturingOne(lib, p, "abc", None);
    r := GroupOf(lib, id, Capturing, p, None);
    ExampleTexts();
  }

  /** The second capturing example of the unit tests: a class child `[a-z]` gives `([a-z])`. */
  method CapturingClassExample(lib: Library, id: string) returns (r: Result<string>)
    requires Pinned(lib)
    ensures r == Ok("([a-z])")
  {
    var c := Child(id, "CharacterClass", "[a-z]");
    LowercaseClassChild(lib, c);
    CapturingOne(lib, c, "[a-z]", None);
    r := GroupOf(lib, id, Capturing, c, None);
    ExampleTexts();
  }

  /** The quantified example of the unit tests: `Min = 1, Max = 3` on a capturing group of `hello` gives `(hello){1,3}`. */
  method QuantifiedExample(lib: Library, id: string) returns (r: Result<string>)
    requires Pinned(lib)
    ensures r == Ok("(hello){1,3}")
  {
    var p := Child(id, "Literal", "hello");
    var q := Q.Quantifier(Some(1), Some(3), None, None, None);
    LiteralChild(lib, p, "hello");
    CapturingOne(lib, p, "hello", Some(q));
    OneToThreeSuffix(lib);
    r := GroupOf(lib, id, Capturing, p, Some(q));
    ExampleTexts();
  }

  /** The named example of the unit tests: `NamedCapturing` named `testGroup` round `[a-z]` gives `(?<testGroup>[a-z])`. */
  method NamedExample(lib: Library, id: string) returns (r: Result<string>)
    requires Pinned(lib)
    ensures r == Ok("(?<testGroup>[a-z])")
  {
    var props := PatternProperties(Some("testGroup"), Some("NamedCapturing"), None);
    var c := Child(id, "CharacterClass", "[a-z]");
    LowercaseClassChild(lib, c);
    NamedOne(lib, c, "[a-z]", "testGroup", None, None);
    r := GroupOf(lib, id, props, c, None);
    ExampleTexts();
  }

  /** An `Anchor` child whose value is neither a name nor a token is dropped without an error. */
  lemma InvalidAnchorDropped(lib: Library, p: Pattern, s: string)
    requires p.patternType == "Anchor" && p.value.Some? && Values.ToRegex(p.value.value) == Ok(s)
    requires !IsName(lib.anchors, s) && !IsToken(lib.anchors, s)
    ensures ProcessPattern(lib, p) == Ok("")
  {
  }

  /**
   * A `CharacterClass` child holding a token or a custom class contributes
   * it verbatim, whatever its quantifier: the suffix that its own
   * `Pattern.ToRegex` appends is dropped.
   */
  lemma ClassChildDropsQuantifier(lib: Library, p: Pattern, s: string)
    requires p.Valid() && p.patternType == "CharacterClass" && p.value.Some? && Values.ToRegex(p.value.value) == Ok(s)
    requires CharacterClasses.IsValidCharacterClass(lib.classes, s) || CharacterClasses.IsCustomCharacterClass(s)
    ensures ProcessPattern(lib, p) == Ok(s)
    ensures p.ToRegex() == Append(ProcessPattern(lib, p), Suffix(p.quantifiers))
  {
  }

  /**
   * An `Anchor` child holding a token of a well-formed anchor table is
   * appended verbatim, whatever its quantifier: a token is never taken for
   * a name.
   */
  lemma AnchorTokenChild(lib: Library, p: Pattern, s: string)
    requires WellFormed(lib.anchors) && IsToken(lib.anchors, s)
    requires p.patternType == "Anchor" && p.value.Some? && Values.ToRegex(p.value.value) == Ok(s)
    ensures ProcessPattern(lib, p) == Ok(s)
  {
    TokenIsNotName(lib.anchors, s);
  }

  /** An `Anchor` child holding an anchor name becomes that anchor's call, whatever its quantifier. */
  lemma AnchorNameChild(lib: Library, p: Pattern, s: string)
    requires IsName(lib.anchors, s)
    requires p.patternType == "Anchor" && p.value.Some? && Values.ToRegex(p.value.value) == Ok(s)
    ensures ProcessPattern(lib, p) == Ok(lib.anchorCall(s))
  {
  }

  /** `Anchor` and `CharacterClass` children never read their quantifier: equal type and value give equal text. */
  lemma ResolvedChildIgnoresQuantifier(lib: Library, p: Pattern, p': Pattern)
    requires p.patternType == p'.patternType && p.value == p'.value
    requires p.patternType == "Anchor" || p.patternType == "CharacterClass"
    ensures ProcessPattern(lib, p) == ProcessPattern(lib, p')
  {
  }

  /** `NamedGroupStyle` is never read: two groups that differ only there compile alike. */
  lemma NamedGroupStyleIgnored(lib: Library, props: PatternProperties, style: Option<string>, ps: seq<Pattern>, q: Option<Q.Quantifier>)
    ensures Compile(lib, Some(props), ps, q) == Compile(lib, Some(props.(namedGroupStyle := style)), ps, q)
  {
  }

  /**
   * `Exactly` reaches the group only through `CanBeGreedy`: without
   * `Greedy == true` it changes nothing, and with it, it suppresses the `*`.
   */
  lemma ExactlyOnlyBlocksGreedy(lib: Library, q: Q.Quantifier, n: int)
    ensures q.greedy != Some(true) ==> GroupSuffix(lib, Some(q.(exactly := Some(n)))) == GroupSuffix(lib, Some(q.(exactly := None)))
    ensures !Q.CanBeGreedy(q.(exactly := Some(n)), GroupTypeName)
  {
  }

  /** The group's greedy test looks at its type name, which never ends in a quantifier: greedy alone always adds `*`. */
  lemma GreedyGroupAppendsStar(lib: Library)
    ensures GroupSuffix(lib, Some(Q.Quantifier(None, None, None, None, Some(true)))) == "*"
  {
    Q.TrailingQuantifier(GroupTypeName);
    assert "" + "" + "*" == "*";
  }

  /** Unlike `Quantifier.ToRegex`, the group does not reject `Max < Min`: the bounds go to `Times` as they are. */
  lemma GroupSkipsRangeCheck(lib: Library)
    ensures GroupSuffix(lib, Some(Q.Quantifier(Some(3), Some(1), None, None, None))) == lib.times(3, 1)
    ensures Q.ToRegex(Q.Quantifier(Some(3), Some(1), None, None, None), "").Err?
  {
    assert lib.times(3, 1) + "" + "" == lib.times(3, 1);
  }

  /** A `Group`-typed child is a plain `Pattern`: it contributes its own `ToRegex`, never a nested group's output. */
  lemma GroupChildIsPlainPattern(lib: Library, p: Pattern, s: string)
    requires p.patternType == "Group" && p.value == Some(Str(s)) && p.quantifiers.None?
    ensures ProcessPattern(lib, p) == Ok(s)
  {
    assert s + "" == s;
  }
}
