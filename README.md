# ConfigToRegex regex compiler, modelled in Dafny

ConfigToRegex reads a small tree of typed pattern objects and compiles it
into a regular-expression string. This project models that compiler and
proves properties of the model:

- a `Quantifier` compiles to a suffix (`{n}`, `*`, `+`, `?`, `{min,max}`,
  a greedy `*`, a lazy `?`) or to a range error;
- a `PatternValue` unwraps nested values down to a string, and its string
  constructor picks a decoder by the shape of its argument;
- a `Pattern` has a validated `Type` and compiles to its value followed
  by its quantifier's suffix;
- an `AnchorPattern` accepts only names and tokens of FluentRegex's
  `Anchors` table, and stores a name as its token;
- a `CharacterClassPattern` accepts names and tokens of FluentRegex's
  `CharacterClasses` table and also any custom `[...]` class; it stores a
  name as its token and a token or custom class as it is;
- a `GroupPattern` compiles its children one by one, wraps them in a group
  and quantifies the group.

Layout, one module per source file:

| file | module | models |
|---|---|---|
| `wrappers.dfy` | `Wrappers` | `Option`, `Result` and the exceptions the compiler raises |
| `text.dfy` | `Text` | the .NET string operations used (`StartsWith`, `EndsWith`, `Contains`, `IsNullOrWhiteSpace`, `ToLower`, `Int32.ToString`) |
| `formats.dfy` | `Formats` | `IsJson`, `IsYaml` and the YAML-shape pattern |
| `quantifier.dfy` | `Quantifiers` | `Quantifier.ToRegex` and `CanBeGreedy` |
| `iquantifier.dfy` | `RegexRulesQuantifier` | the RegexRules copy, `IQuantifier.ToRegex`, built step by step |
| `pattern_value.dfy` | `Values` | `PatternValue`: constructors, `ToString`, `ToRegex`, the conversion to `string` |
| `fluent.dfy` | `FluentRegex` | what the compiler takes from FluentRegex: the two reflected tables and the group builder's outputs |
| `properties.dfy` | `Properties` | `PatternProperties` as a record |
| `pattern.dfy` | `Patterns` | `Pattern` |
| `anchor.dfy` | `Anchors` | `AnchorPattern` |
| `character_class.dfy` | `CharacterClasses` | `CharacterClassPattern` |
| `group.dfy` | `Groups` | `GroupPattern` |

Modelling choices:

- Exceptions are values: every operation that can throw returns a
  `Result`, and the error names the exception type.
- Nullable fields are `Option`s. C#'s lifted comparisons on `int?` are
  written out: `Max < Min` is false when either side is null.
- `Quantifier`, `PatternValue` and `PatternProperties` are immutable values.
- `Pattern`, `AnchorPattern`, `CharacterClassPattern` and `GroupPattern`
  are classes. Their validating setters are methods that change only the
  field they guard.
- FluentRegex's code is not part of this model. The two tables are
  sequences of name/token fields. `FluentRegex.WellFormed` states what the
  compiler relies on about them without checking it:
  - names are identifiers and differ even ignoring case;
  - tokens differ, and no token is also a name;
  - names and tokens are not blank, and are text the `PatternValue` string
    constructor stores verbatim.
- The group builder is a `Library` record of functions. The unit-test
  examples assume only the outputs those tests fix (`Groups.Pinned`).
- `IsValidAnchorType` and `IsValidCharacterClassType` are
  `FluentRegex.IsName` over the relevant table. `IsValidAnchor` is
  `FluentRegex.IsToken`.
- The JSON and YAML decoders are abstract functions (`Values.Codec`,
  `Patterns.PatternCodec`).
- Generated Guid ids are parameters.
- `new PatternValue(pv)` with a `PatternValue` argument resolves to the
  string constructor through the implicit conversion. So the setters
  re-sniff the resolved string, and that is how they are modelled.
- `Pattern.ToRegex` evaluates `Value.ToString()` before it looks at the
  type. A value with null content therefore throws whatever the type.
- A group's children are plain `Pattern`s. A `Group`-typed child
  contributes its own `Pattern.ToRegex`, not a nested group's output.

## Model

| member | source | states |
|---|---|---|
| Quantifiers.Bound | src/ConfigToRegex/Models/Quantifier.cs:124-158 | the first-match chain fails exactly in the `Max < Min` case that no positive `Exactly` overrides |
| Quantifiers.ToRegex | src/ConfigToRegex/Models/Quantifier.cs:119-175 | fails exactly on `Max < Min` with the `SerializationException` message; a positive `Exactly` gives a `{Exactly}` prefix; a lazy quantifier on an input not ending in `?` ends in `?`; with no bound the result is the greedy `*` and/or the lazy `?` alone |
| Quantifiers.EmptyCompilesToNothing | src/ConfigToRegex/Models/Quantifier.cs:119-174 | an all-null quantifier yields `""` for every input |
| Quantifiers.ShortForms | src/ConfigToRegex/Models/Quantifier.cs:128-139 | `Min=0` alone starts with `*`, `Min=1` alone with `+`, `Min=0,Max=1` with `?` |
| Quantifiers.RangeForm | src/ConfigToRegex/Models/Quantifier.cs:145-158 | past the short forms and the range check, any set bound gives a `{min,max}` prefix, and `Exactly <= 0` is ignored |
| Quantifiers.ParseRangeText | src/ConfigToRegex/Models/Quantifier.cs:147-157 | the `{min,max}` text reads back as exactly the two nullable bounds, so the comma and braces are always there and nothing else is lost |
| Quantifiers.CanBeGreedy | src/ConfigToRegex/Models/Quantifier.cs:177-187 | holds when greedy is requested, no `Exactly`, `Min` or `Max` is set, and the input does not end in `*`, `+` or `?` |
| Quantifiers.GreedyIff | src/ConfigToRegex/Models/Quantifier.cs:159-187 | the greedy `*` is appended exactly when `CanBeGreedy` holds (greedy requested, no bound set, input not ending in `*`, `+` or `?`); otherwise the result is the bound plus the lazy `?` |
| Quantifiers.TrailingQuantifier | src/ConfigToRegex/Models/Quantifier.cs:181-183 | the `EndsWith` tests of `CanBeGreedy` look at the last character of the input only |
| Quantifiers.LazyLooksAtInput | src/ConfigToRegex/Models/Quantifier.cs:164-172 | the lazy test reads the input, not the built suffix: `{Min=0,Max=1,Lazy}` on `a` gives `??`, on `a?` gives `?`; `{2,9}?` on `A` |
| Quantifiers.LazyShortForm | src/ConfigToRegex/Models/Quantifier.cs:164-172 | `{Min=0,Max=1,Lazy}` gives `??`, or `?` alone after an input ending in `?` |
| Quantifiers.LazyRange | src/ConfigToRegex/Models/Quantifier.cs:145-172 | `{Min=2,Max=9,Lazy}` gives `{2,9}?`, or `{2,9}` alone after an input ending in `?` |
| Quantifiers.BoundAlone | src/ConfigToRegex/Models/Quantifier.cs:159-174 | without `Greedy` or `Lazy` the suffix is the bound alone, and the input is never read |
| Quantifiers.BoundExamples | tests/ConfigToRegexTests/Models/Quantifier.Tests.cs:9-49 | the bounds the unit tests fix: `{3}`, `*`, `+`, `?`, the range error and `{2,3}` |
| Quantifiers.GreedyOrLazyAlone | src/ConfigToRegex/Models/Quantifier.cs:159-172 | with no bound, greedy alone gives `*` unless the input ends in `*`, `+` or `?`, and lazy alone gives `?` unless it ends in `?` |
| Quantifiers.TestTable | tests/ConfigToRegexTests/Models/Quantifier.Tests.cs:9-136 | the outputs the unit tests fix, including the range error and the `CanBeGreedy` cases |
| Quantifiers.NegativeBoundPassesThrough | src/ConfigToRegex/Models/Quantifier.cs:145-158 | a negative bound is rendered as it is: `Min=-1` alone gives `{-1,}` |
| RegexRulesQuantifier.ToRegex | src/RegexRules/Interfaces/IQuantifier.cs:30-86 | building the suffix in a buffer, the bound and then the greedy `*` and the lazy `?`, gives the same result as `Quantifiers.ToRegex` for every field combination and input |
| RegexRulesQuantifier.AppendBound | src/RegexRules/Interfaces/IQuantifier.cs:33-69 | the first-match-wins chain appending into the empty buffer yields exactly `Quantifiers.Bound`, the range error included |
| RegexRulesQuantifier.GreedyAndLazyAlone | tests/RegexRulesTests/Models/Quantifier.Tests.cs:53-64 | `Greedy` alone gives `*` and `Lazy` alone gives `?` on `a` |
| Values.ToRegex | src/ConfigToRegex/Models/PatternValue.cs:123-130 | succeeds exactly when the innermost value is a string and returns that string; null content throws `RuntimeBinderException` |
| Values.ToString | src/ConfigToRegex/Models/PatternValue.cs:68-77 | a successful result is the innermost string |
| Values.ToStringAgreesWithToRegex | src/ConfigToRegex/Models/PatternValue.cs:68-77 | `ToString` and `ToRegex` agree at every depth of nesting |
| Values.WrappedResolves | src/ConfigToRegex/Models/PatternValue.cs:123-130 | any number of wrappers around a string resolves to that string |
| Values.AsString | src/ConfigToRegex/Models/PatternValue.cs:23-29 | the conversion to `string` gives `""` for null content and `ToRegex` otherwise |
| Values.DefaultValue | src/ConfigToRegex/Models/PatternValue.cs:62-65 | a default value converts to `""` but `ToRegex` and `ToString` throw on it |
| Values.FromObject | src/ConfigToRegex/Models/PatternValue.cs:31-34 | the `dynamic` constructor keeps null as null and resolves an object as that object resolves |
| Values.OrEmpty | src/ConfigToRegex/Models/PatternValue.cs:46-53 | a decoded object with a null `Value` yields `""`; anything else is kept; the result is never null |
| Values.Decoded | src/ConfigToRegex/Models/PatternValue.cs:43-54 | a decoder's exception propagates, a null decoded object throws `NullReferenceException`, a null decoded `Value` becomes `""` |
| Values.FromString | src/ConfigToRegex/Models/PatternValue.cs:36-59 | null becomes `""`; `{...}` goes to the JSON decoder; else text containing `Value:` goes to the YAML decoder; else the text is stored verbatim; the stored value is never null |
| Values.PlainRoundTrip | src/ConfigToRegex/Models/PatternValue.cs:55-58 | plain text is stored as given and resolves, converts and prints as itself |
| Values.ConstructorExamples | tests/ConfigToRegexTests/Models/PatternValue.Tests.cs:26-92 | the constructor and resolution examples of the unit tests, `Value: test` giving `test` |
| Formats.IsJson | src/ConfigToRegex/Helpers/StringUtilities.cs:19-22 | holds exactly when the text has at least two characters, the first `{` and the last `}`; a lone `{` is not JSON |
| Formats.IsYaml | src/ConfigToRegex/Helpers/StringUtilities.cs:29-32 | holds when the YAML shape matches some substring of the text, unanchored |
| Formats.IsYamlIffColon | src/RegexRules/Helpers/Validation.Patterns.cs:11 | the unanchored YAML shape matches exactly the texts that contain a colon |
| Formats.IsYamlIgnoresOtherCharacters | src/RegexRules/Helpers/Validation.Patterns.cs:11 | texts with colons in the same places are both YAML-shaped or both not |
| Formats.YamlSniffing | src/ConfigToRegex/Helpers/StringUtilities.cs:29-32 | `:` and `Id: test` are YAML-shaped and `not yaml` is not |
| Formats.BraceColonSniffing | src/ConfigToRegex/Helpers/StringUtilities.cs:19-32 | `{a: b}` is both JSON and YAML-shaped |
| Formats.SniffingExamples | src/ConfigToRegex/Helpers/StringUtilities.cs:19-32 | `""` and `{` are not JSON and `{}` is; `:` and `Id: test` are YAML-shaped and `not yaml` is not; `{a: b}` is both |
| FluentRegex.IsName | src/ConfigToRegex/Models/AnchorPattern.cs:185-188 | holds when the text is, ordinally, the name of some field of the table |
| FluentRegex.IsToken | src/ConfigToRegex/Models/AnchorPattern.cs:196-199 | holds when the text is, ordinally, the token of some field of the table |
| FluentRegex.Lookup | src/ConfigToRegex/Models/CharacterClassPattern.cs:344 | `GetField(name)` finds a token exactly when `name` is a field name, and the token is that field's |
| FluentRegex.LastCaseInsensitive | src/ConfigToRegex/Models/AnchorPattern.cs:170-176 | the overwriting `ForEach` finds a token exactly when some name matches ignoring case, and the token belongs to a matching field |
| FluentRegex.CaseInsensitiveFindsExactName | src/ConfigToRegex/Models/AnchorPattern.cs:167-183 | in a well-formed table, the case-insensitive search for an exact name finds that name's own token |
| FluentRegex.CaseVariantIsNotName | src/ConfigToRegex/Models/AnchorPattern.cs:167-188 | in a well-formed table a case variant of a name is not a name, yet some name matches it ignoring case |
| Patterns.ValidTypesAreAllowedValues | src/ConfigToRegex/Interfaces/IPattern.cs:16-34 | `IsValidPatternType` accepts exactly the four declared allowed values, compared ordinally (`literal` is rejected) |
| Patterns.TextRoute | src/ConfigToRegex/Models/Pattern.cs:97-104 | `{`-prefixed text goes to JSON, else text with a colon to YAML, else to no decoder |
| Patterns.Pattern.constructor | src/ConfigToRegex/Models/Pattern.cs:122-125 | a new pattern is a `Literal` with an empty value and no quantifier |
| Patterns.Pattern.OfValue | src/ConfigToRegex/Models/Pattern.cs:127-130 | `new Pattern(PatternValue)` is a `Literal` holding the given, possibly null, value |
| Patterns.Pattern.SetType | src/ConfigToRegex/Models/Pattern.cs:51-65 | a valid type is stored; any other throws `ArgumentException` and leaves `Type` unchanged |
| Patterns.Pattern.ValueText | src/ConfigToRegex/Models/Pattern.cs:231-238 | a `Literal` takes a non-empty `Value.ToString()`; the other three types take a non-empty `Value.ToRegex()`; otherwise nothing; a null-content value throws |
| Patterns.Pattern.ToRegex | src/ConfigToRegex/Models/Pattern.cs:228-245 | with a valid type: the resolved value then the quantifier suffix for `""`; null content throws for any type; a null value gives the suffix alone |
| Patterns.Pattern.Create | src/ConfigToRegex/Models/Pattern.cs:112-120 | the six-argument constructor fails exactly when the type is invalid, else stores every argument |
| Patterns.Pattern.FromText | src/ConfigToRegex/Models/Pattern.cs:95-183 | null text throws; `{`-prefixed text goes to the JSON decoder, other text with a colon to the YAML decoder, and a decoder's exception propagates; no decoder or a null decoded object leaves the defaults of `new Pattern()`; JSON: a missing or invalid `Type` throws `ArgumentException`, otherwise every member is copied; YAML: an invalid `Type` throws `ArgumentException`, otherwise missing members take their defaults (fresh id, `Literal`, empty value, empty message); in every case a null value ends as `""` |
| Patterns.DefaultCompilesToEmpty | src/ConfigToRegex/Models/Pattern.cs:122-125 | a default pattern compiles to `""` |
| Patterns.OutputIgnoresIdMessageProperties | src/ConfigToRegex/Models/Pattern.cs:228-245 | `Id`, `Message` and `Properties` never change the output |
| Patterns.UnsetValueThrows | src/ConfigToRegex/Models/Pattern.cs:231-234 | a value with null content throws `RuntimeBinderException` whatever the type and quantifier |
| Patterns.GreedyAlwaysAppends | src/ConfigToRegex/Models/Pattern.cs:240-243 | the quantifier sees `""`, so a greedy-only quantifier appends `*` even after a value ending in `*` |
| Patterns.EmptyValueGivesSuffix | src/ConfigToRegex/Models/Pattern.cs:231-238 | an empty resolved value contributes nothing: the output is the suffix alone |
| Anchors.GetAnchor | src/ConfigToRegex/Models/AnchorPattern.cs:167-183 | the loop returns the token of the last field whose name matches ignoring case, and throws `ArgumentException` when none does |
| Anchors.Normalized | src/ConfigToRegex/Models/AnchorPattern.cs:76-96 | a failed conversion propagates; a value that is neither a name nor a token throws `ArgumentException`; anything accepted is a name or a token |
| Anchors.NameStoresToken | src/ConfigToRegex/Models/AnchorPattern.cs:87-90 | with a well-formed table a name is stored as its own token |
| Anchors.TokenStoredVerbatim | src/ConfigToRegex/Models/AnchorPattern.cs:91-94 | with a well-formed table a token is stored as it is |
| Anchors.AcceptedCompilesToToken | src/ConfigToRegex/Models/AnchorPattern.cs:78-94 | whatever the setter accepts resolves to a token of the table |
| Anchors.NormalizedIdempotent | src/ConfigToRegex/Models/AnchorPattern.cs:78-94 | assigning the stored value again stores the same value |
| Anchors.CaseVariantRejected | src/ConfigToRegex/Models/AnchorPattern.cs:167-188 | a case variant of a name is found by `GetAnchor` but rejected by the setter's case-sensitive test |
| Anchors.WordBoundaryExample | tests/ConfigToRegexTests/Models/AnchorPattern.Tests.cs:21-28 | with `WordBoundary` standing for `\b`, the name is stored and compiles as `\b` |
| Anchors.ObjectText | src/ConfigToRegex/Models/AnchorPattern.cs:137-151 | non-blank text goes to the JSON decoder, else the YAML decoder, else nowhere; blank text assigns `""` through the setter and fails when the setter does |
| Anchors.BlankObjectTextThrows | src/ConfigToRegex/Models/AnchorPattern.cs:139-142 | with a well-formed table, blank or null text throws `ArgumentException` |
| Anchors.AnchorPattern.constructor | src/ConfigToRegex/Models/AnchorPattern.cs:134-135 | a new anchor has no value and no quantifier |
| Anchors.AnchorPattern.Value | src/ConfigToRegex/Models/AnchorPattern.cs:72-75 | an unset value reads as an empty value that resolves to `""` |
| Anchors.AnchorPattern.SetType | src/ConfigToRegex/Models/AnchorPattern.cs:59-63 | assigning `Type` changes nothing |
| Anchors.AnchorPattern.SetValue | src/ConfigToRegex/Models/AnchorPattern.cs:76-96 | stores the normalised value, or throws and keeps the old one |
| Anchors.AnchorPattern.ToRegex | src/ConfigToRegex/Models/AnchorPattern.cs:302-305 | the stored value resolved; `""` when unset; the quantifier is never used |
| Anchors.AnchorIgnoresQuantifiers | src/ConfigToRegex/Models/AnchorPattern.cs:302-305 | anchors with the same value compile alike whatever their quantifiers |
| Anchors.NameThenCompile | src/ConfigToRegex/Models/AnchorPattern.cs:128-132 | an anchor built from a name, with any quantifier, compiles to the name's token |
| CharacterClasses.IsCustomCharacterClass | src/ConfigToRegex/Models/CharacterClassPattern.cs:285-297 | holds exactly when the text has at least two characters, starts with `[` and ends with `]`; the contents are not checked |
| CharacterClasses.IsValidCharacterClass | src/ConfigToRegex/Models/CharacterClassPattern.cs:280-283 | holds for a token of the class table or a custom `[...]` class |
| CharacterClasses.IsValidPatternType | src/ConfigToRegex/Models/CharacterClassPattern.cs:318-321 | accepts the four pattern types except `Anchor` |
| CharacterClasses.Resolve | src/ConfigToRegex/Models/CharacterClassPattern.cs:337-359 | fails only with `ArgumentException`, and always when the text is neither a name nor a token; a result is never blank and is the name's token or the token itself |
| CharacterClasses.GetCharacterClass | src/ConfigToRegex/Models/CharacterClassPattern.cs:337-359 | reassigning the local through the name lookup and then the token lookup computes `Resolve` |
| CharacterClasses.ResolveWellFormed | src/ConfigToRegex/Models/CharacterClassPattern.cs:337-359 | with a well-formed table a name maps to its token and a token to itself |
| CharacterClasses.Normalized | src/ConfigToRegex/Models/CharacterClassPattern.cs:76-102 | a failed conversion propagates; a value that is not a name, a token or a custom class throws `ArgumentException`; a token or custom class goes to the string constructor as it is |
| CharacterClasses.NameStored | src/ConfigToRegex/Models/CharacterClassPattern.cs:95-99 | with a well-formed table a name is stored as its token |
| CharacterClasses.TokenStored | src/ConfigToRegex/Models/CharacterClassPattern.cs:91-94 | with a well-formed table a token is stored as it is |
| CharacterClasses.CustomStoredVerbatim | src/ConfigToRegex/Models/CharacterClassPattern.cs:91-94 | a plain custom class is stored and resolves as it is |
| CharacterClasses.CustomWithValueKeyIsDecoded | src/ConfigToRegex/Models/CharacterClassPattern.cs:91-94 | a custom class containing `Value:` is handed to the YAML decoder rather than stored |
| CharacterClasses.NormalizedIdempotent | src/ConfigToRegex/Models/CharacterClassPattern.cs:78-101 | assigning the stored value again stores the same value |
| CharacterClasses.ObjectText | src/ConfigToRegex/Models/CharacterClassPattern.cs:153-186 | null text throws; a leading `\` that is not a valid class throws; other text that is not a name or blank goes to JSON, else YAML, else throws; an assigned value is one the setter produces |
| CharacterClasses.ObjectTextWellFormed | src/ConfigToRegex/Models/CharacterClassPattern.cs:153-174 | with a well-formed table a name is assigned as its token, a `\` token as itself, and blank text throws |
| CharacterClasses.ObjectTextName | src/ConfigToRegex/Models/CharacterClassPattern.cs:167-170 | with a well-formed table a name given as object text is assigned as its token |
| CharacterClasses.ObjectTextToken | src/ConfigToRegex/Models/CharacterClassPattern.cs:155-160 | with a well-formed table a token starting with `\` is assigned as itself |
| CharacterClasses.ObjectTextBlank | src/ConfigToRegex/Models/CharacterClassPattern.cs:171-174 | with a well-formed table blank object text throws `ArgumentException`, because the setter rejects `""` |
| CharacterClasses.CharacterClassPattern.constructor | src/ConfigToRegex/Models/CharacterClassPattern.cs:148-151 | a new class pattern holds an empty value and no quantifier |
| CharacterClasses.CharacterClassPattern.SetType | src/ConfigToRegex/Models/CharacterClassPattern.cs:58-62 | assigning `Type` changes nothing |
| CharacterClasses.CharacterClassPattern.SetValue | src/ConfigToRegex/Models/CharacterClassPattern.cs:76-102 | stores the normalised value, or throws and keeps the old one |
| CharacterClasses.CharacterClassPattern.ToRegex | src/ConfigToRegex/Models/CharacterClassPattern.cs:386-394 | the resolved value followed by the quantifier suffix for `""`; the stored text alone without a quantifier |
| CharacterClasses.AcceptedCompilesToClass | src/ConfigToRegex/Models/CharacterClassPattern.cs:78-101 | whatever the setter accepted compiles, without a quantifier, to a token or a custom class |
| CharacterClasses.GreedyAfterAnyClass | src/ConfigToRegex/Models/CharacterClassPattern.cs:386-394 | a greedy-only quantifier appends `*` after any class |
| CharacterClasses.Create | src/ConfigToRegex/Models/CharacterClassPattern.cs:142-146 | the constructor succeeds exactly when the setter accepts the value, then stores the quantifier |
| Groups.ProcessPattern | src/ConfigToRegex/Models/GroupPattern.cs:204-256 | `Literal` and `Group` children contribute their `ToRegex`; `Anchor` and `CharacterClass` children fail exactly when their value is null or does not resolve, and otherwise contribute the anchor or class text of the resolved value (name → call, token → itself, custom class → itself, anything else → nothing), never their quantifier; an invalid type fails exactly when the child's `ToRegex` does, with `ArgumentException` |
| Groups.Body | src/ConfigToRegex/Models/GroupPattern.cs:169-172 | the children's contributions concatenated in list order; the first failing child's error stops the group |
| Groups.BodyConcat | src/ConfigToRegex/Models/GroupPattern.cs:169-172 | the body of two lists of children joined is the two bodies joined: children are concatenated in order with no separator |
| Groups.BodyOkIff | src/ConfigToRegex/Models/GroupPattern.cs:169-172 | the body is produced exactly when every child compiles |
| Groups.BodyOfOne | src/ConfigToRegex/Models/GroupPattern.cs:169-172 | a single child's body is its contribution |
| Groups.FirstFailureStops | src/ConfigToRegex/Models/GroupPattern.cs:169-172 | the first failing child's error is the body's error |
| Groups.GroupSuffix | src/ConfigToRegex/Models/GroupPattern.cs:175-199 | the group's quantifier: `Times` from the bounds present, then `Lazy`, then `*` when `CanBeGreedy` holds for the group's type name |
| Groups.Wrapped | src/ConfigToRegex/Models/GroupPattern.cs:157-168 | a `NamedCapturing` group is a named group with angle brackets, any other type a group of that type |
| Groups.Compile | src/ConfigToRegex/Models/GroupPattern.cs:153-202 | null `Properties` throws `NullReferenceException`, a null `GroupType` `ArgumentNullException`, an unknown one `ArgumentException`, before any child; otherwise the group compiles exactly when its body does |
| Groups.TextRoute | src/ConfigToRegex/Models/GroupPattern.cs:79-98 | null or blank text resets the group; otherwise the JSON decoder runs on JSON text and then the YAML decoder on YAML-shaped text |
| Groups.BraceColonDecodedTwice | src/ConfigToRegex/Models/GroupPattern.cs:89-96 | `{a: b}` goes through both decoders, JSON first |
| Groups.GroupPattern.constructor | src/ConfigToRegex/Models/GroupPattern.cs:74-77 | a new group has no children, default properties and no quantifier |
| Groups.GroupPattern.Blank | src/ConfigToRegex/Models/GroupPattern.cs:81-88 | a group from blank text has no children, default properties and an all-null quantifier |
| Groups.GroupPattern.ToRegex | src/ConfigToRegex/Models/GroupPattern.cs:153-202 | the loop over the children computes `Compile` |
| Groups.DefaultGroupThrows | tests/ConfigToRegexTests/Models/GroupPattern.Tests.cs:75-80 | a default group throws `ArgumentNullException` |
| Groups.BlankGroupThrows | src/ConfigToRegex/Models/GroupPattern.cs:157 | a group from blank text throws `ArgumentNullException` as well |
| Groups.LiteralChild | src/ConfigToRegex/Models/GroupPattern.cs:208-210 | a literal child with text and no quantifier contributes the text |
| Groups.CustomClassChild | src/ConfigToRegex/Models/GroupPattern.cs:230-234 | a class child holding a custom class contributes it as it is |
| Groups.CapturingOne | src/ConfigToRegex/Models/GroupPattern.cs:159-163 | one child in a capturing group gives `(child)` followed by the group suffix |
| Groups.NamedOne | src/ConfigToRegex/Models/GroupPattern.cs:164-168 | one child in a named group gives `(?<name>child)` followed by the group suffix, whatever `NamedGroupStyle` says |
| Groups.CapturingLiteralExample | tests/ConfigToRegexTests/Models/GroupPattern.Tests.cs:82-89 | a capturing group of the literal `abc` gives `(abc)` |
| Groups.CapturingClassExample | tests/ConfigToRegexTests/Models/GroupPattern.Tests.cs:91-96 | a capturing group of the class `[a-z]` gives `([a-z])` |
| Groups.QuantifiedExample | tests/ConfigToRegexTests/Models/GroupPattern.Tests.cs:99-114 | `Min=1,Max=3` on a capturing group of `hello` gives `(hello){1,3}` |
| Groups.NamedExample | tests/ConfigToRegexTests/Models/GroupPattern.Tests.cs:116-126 | a `NamedCapturing` group named `testGroup` of `[a-z]` gives `(?<testGroup>[a-z])` |
| Groups.InvalidAnchorDropped | src/ConfigToRegex/Models/GroupPattern.cs:211-224 | an anchor child that is neither a name nor a token contributes nothing and raises no error |
| Groups.ClassChildDropsQuantifier | src/ConfigToRegex/Models/GroupPattern.cs:225-234 | for any quantifier, a class child whose value resolves to a token or a custom class contributes exactly that text, while its own `ToRegex` is that text followed by the quantifier's suffix |
| Groups.AnchorTokenChild | src/ConfigToRegex/Models/GroupPattern.cs:211-224 | with a well-formed anchor table, an anchor child whose value resolves to a token contributes exactly that token, whatever its quantifier |
| Groups.AnchorNameChild | src/ConfigToRegex/Models/GroupPattern.cs:214-219 | an anchor child whose value resolves to an anchor name contributes that anchor's call |
| Groups.ResolvedChildIgnoresQuantifier | src/ConfigToRegex/Models/GroupPattern.cs:211-241 | anchor and class children with equal type and value contribute the same text whatever their quantifiers |
| Groups.NamedGroupStyleIgnored | src/ConfigToRegex/Models/GroupPattern.cs:164-168 | `NamedGroupStyle` never changes the output |
| Groups.ExactlyOnlyBlocksGreedy | src/ConfigToRegex/Models/GroupPattern.cs:175-198 | `Exactly` changes the group suffix only through `CanBeGreedy`, where it suppresses the `*` |
| Groups.GreedyGroupAppendsStar | src/ConfigToRegex/Models/GroupPattern.cs:195-198 | the greedy test looks at the group's type name, so greedy alone always adds `*` |
| Groups.GroupSkipsRangeCheck | src/ConfigToRegex/Models/GroupPattern.cs:177-188 | a group passes `Max < Min` to `Times` where `Quantifier.ToRegex` would throw |
| Groups.GroupChildIsPlainPattern | src/ConfigToRegex/Models/GroupPattern.cs:242-244 | a `Group`-typed child contributes its own value and quantifier, as any `Pattern` does |

## Left out

- JSON and YAML encoding and decoding: `SerializeJson`, `SerializeYaml`, `DeserializeJson` and `DeserializeYaml` in every class, `ConfigSerializer` and `PatternList`. These are calls into System.Text.Json and YamlDotNet. Only sniffing and dispatch order are modelled. Decoders are abstract functions.
- Anchors.ObjectText: says which decoder the text goes to (`Decoding`), not what the decoded object then assigns.
- CharacterClasses.ObjectText: says which decoder the text goes to (`Decoding`), not what the decoded object then assigns.
- Groups.TextRoute: says which decoders run and in what order, not what they copy into the group.
- Patterns.Pattern.FromText: the decoders are abstract functions returning a record, so what System.Text.Json and YamlDotNet accept or reject is not modelled; one fresh id stands for both Guids the source may generate.
- The string-plus-quantifier constructors of `AnchorPattern` and `CharacterClassPattern` are not separate members. They are the `PatternValue` string constructor followed by the setter, and both are modelled.
- File I/O (`ReadConfigFile`), the `JsonSchema` properties and the generated Guid ids. Ids are parameters and never reach the output.
- FluentRegex internals: `GroupBuilder`, `StartAnchor().InvokeMethod`, `StartCharacterClass()`, `Times`, `Lazy` and the contents of the `Anchors` and `CharacterClasses` tables. Their outputs are uninterpreted functions. Tables are constrained only by `FluentRegex.WellFormed`, and only the test-fixed outputs are pinned.
- `AppendLiteral` is taken to append its text unchanged, as the group unit tests require. Any escaping FluentRegex might do is not modelled.
- Groups.GroupSkipsRangeCheck: `Times(min, max)` with `Max < Min` is an uninterpreted function. Whether FluentRegex throws there is not modelled.
- RegexRules models (`src/RegexRules/Models/*`). Their getters recurse, their setters discard values and their `ToRegex` throws `NotImplementedException`. Only the RegexRules `IQuantifier` and the YAML-shape constant are modelled.
- Exception classes and the interfaces that only declare members. `IPattern`'s `IsJson`/`IsYaml` are the same predicates as `StringUtilities`', modelled once in `Formats`.
- `PatternProperties` beyond its three string fields, including its deserialising constructors.
- `ToLower` is modelled on ASCII letters only. `\s` follows `char.IsWhiteSpace`, and `\w` covers ASCII letters, digits and `_` only. String comparisons are ordinal.
- `int` bounds are unbounded integers. The compiler does no arithmetic on them, so 32-bit width does not matter.
- Quantifiers.Bound: the source formats bounds with `Int32.ToString()` under the current culture (Quantifier.cs lines 126, 150 and 155); the model always writes an ASCII `-` and ASCII digits, as the invariant culture does, so culture-specific digits or minus signs are not modelled.
- `Quantifier.ToRegex` reading but never changing its fields holds by construction: a `Quantifier` is an immutable value here.
- `PatternValue` is a value: aliasing of nested `PatternValue` objects is not modelled.
- The `Valid` type invariant of `Pattern` is kept by `SetType`. Direct field writes are assumed to go through the setter.
