/**
 * What the compiler takes from the FluentRegex library, whose code is not
 * part of this model: the `Anchors` and `CharacterClasses` tables (public
 * constant fields, read by reflection as name/token pairs) and the group
 * builder's output. The builder is a record of functions; only the outputs
 * the unit tests fix are ever assumed about it.
 */
module FluentRegex {
  import opened Wrappers
  import opened Text
  import Values

  /** A public constant field of `Anchors` or `CharacterClasses`: its name and its regex token. */
  datatype Field = Field(name: string, token: string)

  /** The fields of one static class, in reflection order. */
  type Table = seq<Field>

  /** `s` is the name of a field (the comparison is ordinal, as `List.Contains` does). */
  predicate IsName(t: Table, s: string) {
    exists i :: 0 <= i < |t| && t[i].name == s
  }

  /** `s` is the token of a field. */
  predicate IsToken(t: Table, s: string) {
    exists i :: 0 <= i < |t| && t[i].token == s
  }

  /** `GetField(name)`: the token of the field with exactly this name. */
  function Lookup(t: Table, name: string): (r: Option<string>)
    ensures r.Some? <==> IsName(t, name)
    ensures r.Some? ==> exists i :: 0 <= i < |t| && t[i] == Field(name, r.value)
  {
    if |t| == 0 then None
    else if t[0].name == name then Some(t[0].token)
    else
      var r := Lookup(t[1..], name);
      assert forall i :: 0 <= i < |t| - 1 ==> t[1..][i] == t[i + 1];
      assert IsName(t, name) ==> IsName(t[1..], name) by {
        if IsName(t, name) {
          var i :| 0 <= i < |t| && t[i].name == name;
          assert i > 0;
          assert t[1..][i - 1].name == name;
        }
      }
      r
  }

  /** The token of the LAST field whose name equals `s` ignoring case, as a `ForEach` that keeps overwriting would find. */
  function LastCaseInsensitive(t: Table, s: string): (r: Option<string>)
    ensures r.Some? <==> exists i :: 0 <= i < |t| && ToLower(t[i].name) == ToLower(s)
    ensures r.Some? ==> exists i :: 0 <= i < |t| && ToLower(t[i].name) == ToLower(s) && t[i].token == r.value
    decreases |t|
  {
    if |t| == 0 then None
    else if ToLower(t[|t| - 1].name) == ToLower(s) then Some(t[|t| - 1].token)
    else
      var r := LastCaseInsensitive(t[..|t| - 1], s);
      assert forall i :: 0 <= i < |t| - 1 ==> t[..|t| - 1][i] == t[i];
      r
  }

  /** A character a C# field name may hold (ASCII letters, digits and `_`). */
  predicate IsIdentifierChar(c: char) {
    ('a' <= c <= 'z') || ('A' <= c <= 'Z') || ('0' <= c <= '9') || c == '_'
  }

  /** A field name: a non-empty run of identifier characters. */
  predicate IsIdentifier(s: string) {
    |s| > 0 && forall i :: 0 <= i < |s| ==> IsIdentifierChar(s[i])
  }

  /**
   * What the compiler relies on about a table without checking it: names
   * are identifiers and differ even ignoring case, tokens differ, no token
   * is also a name, nothing is blank, and every name and token is text
   * the `PatternValue` string constructor stores verbatim.
   */
  predicate WellFormed(t: Table) {
    (forall i, j :: 0 <= i < j < |t| ==> ToLower(t[i].name) != ToLower(t[j].name))
    && (forall i, j :: 0 <= i < j < |t| ==> t[i].token != t[j].token)
    && (forall i, j :: 0 <= i < |t| && 0 <= j < |t| ==> t[i].token != t[j].name)
    && (forall i :: 0 <= i < |t| ==> !IsBlank(t[i].name) && !IsBlank(t[i].token))
    && (forall i :: 0 <= i < |t| ==> Values.Plain(t[i].token) && Values.Plain(t[i].name))
    && (forall i :: 0 <= i < |t| ==> IsIdentifier(t[i].name))
  }

  /** Equal names have equal lower-case forms. */
  lemma ToLowerEqual(a: string, b: string)
    requires a == b
    ensures ToLower(a) == ToLower(b)
  {
  }

  /** In a well-formed table the case-insensitive search finds an exact name's own token. */
  lemma {:induction false} CaseInsensitiveFindsExactName(t: Table, s: string)
    requires WellFormed(t) && IsName(t, s)
    ensures LastCaseInsensitive(t, s) == Lookup(t, s)
  {
    var i :| 0 <= i < |t| && t[i].name == s;
    ToLowerEqual(t[i].name, s);
    var r := LastCaseInsensitive(t, s);
    var j :| 0 <= j < |t| && ToLower(t[j].name) == ToLower(s) && t[j].token == r.value;
    assert i == j;
    var k :| 0 <= k < |t| && t[k] == Field(s, Lookup(t, s).value);
    ToLowerEqual(t[k].name, t[i].name);
    assert k == i;
  }

  /** In a well-formed table, a case variant of a name is not itself a name. */
  lemma CaseVariantIsNotName(t: Table, name: string, variant: string)
    requires WellFormed(t) && IsName(t, name)
    requires variant != name && ToLower(variant) == ToLower(name)
    ensures !IsName(t, variant)
    ensures exists i :: 0 <= i < |t| && ToLower(t[i].name) == ToLower(variant)
  {
    var i :| 0 <= i < |t| && t[i].name == name;
    ToLowerEqual(t[i].name, name);
    forall j | 0 <= j < |t|
      ensures t[j].name != variant
    {
      if j < i {
        assert ToLower(t[j].name) != ToLower(t[i].name);
      } else if i < j {
        assert ToLower(t[i].name) != ToLower(t[j].name);
      }
    }
  }

  /** In a well-formed table, a field's name finds that field's token. */
  lemma LookupFindsField(t: Table, f: Field)
    requires WellFormed(t) && f in t
    ensures Lookup(t, f.name) == Some(f.token)
  {
    var i :| 0 <= i < |t| && t[i] == f;
    assert IsName(t, f.name);
    var k :| 0 <= k < |t| && t[k] == Field(f.name, Lookup(t, f.name).value);
    ToLowerEqual(t[i].name, t[k].name);
  }

  /** In a well-formed table, the token of a name is a token, and it is not a name itself. */
  lemma LookupIsToken(t: Table, s: string)
    requires WellFormed(t) && IsName(t, s)
    ensures IsToken(t, Lookup(t, s).value) && !IsName(t, Lookup(t, s).value)
    ensures Values.Plain(Lookup(t, s).value) && !IsBlank(Lookup(t, s).value)
  {
  }

  /** A token of a well-formed table is not a name, and is plain and not blank. */
  lemma TokenIsNotName(t: Table, s: string)
    requires WellFormed(t) && IsToken(t, s)
    ensures !IsName(t, s) && Values.Plain(s) && !IsBlank(s)
  {
  }

  /** Blank text is neither a name nor a token of a well-formed table. */
  lemma BlankIsNothing(t: Table, s: string)
    requires WellFormed(t) && IsBlank(s)
    ensures !IsName(t, s) && !IsToken(t, s)
  {
  }

  /**
   * The FluentRegex calls the group compiler makes:
   *   anchors, classes  the two reflected tables;
   *   isGroupType       whether `Enum.Parse(typeof(GroupType), s)` succeeds;
   *   group             a group builder of that type wrapped round a body;
   *   namedGroup        a named group with angle brackets wrapped round a body;
   *   anchorCall        the text `StartAnchor().InvokeMethod(name)` appends;
   *   classCall         the text `StartCharacterClass().InvokeMethod(name)` appends;
   *   times             `Times(min, max)`;  timesExactly  `Times(n)`;
   *   lazy              the text `Lazy()` appends.
   */
  datatype Library = Library(
    anchors: Table,
    classes: Table,
    isGroupType: string -> bool,
    group: (string, string) -> string,
    namedGroup: (Option<string>, string) -> string,
    anchorCall: string -> string,
    classCall: string -> string,
    times: (int, int) -> string,
    timesExactly: int -> string,
    lazy: string)
}
