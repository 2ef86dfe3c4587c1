/**
 * Format sniffing: how the object-text constructors decide whether their
 * argument is JSON or YAML before handing it to a decoder (`IsJson`,
 * `IsYaml` and the YAML-shape pattern they match against).
 */
module Formats {
  import opened Text

  /** The two encodings a pattern object can be written in. */
  datatype Format = Json | Yaml

  /** `IsJson`: the text opens with `{` and closes with `}`, so a lone `{` is not JSON. */
  predicate IsJson(s: string): (b: bool)
    ensures b <==> |s| >= 2 && s[0] == '{' && s[|s| - 1] == '}'
  {
    EndsWithChar(s, '}');
    assert StartsWith(s, "{") <==> |s| >= 1 && s[0] == '{' by {
      if |s| >= 1 {
        assert s[..1] == [s[0]];
      }
    }
    StartsWith(s, "{") && EndsWith(s, "}")
  }

  /** The YAML-shape pattern, verbatim. */
  const YamlShape: string := "(?:-?[\\s\\w\\d]*):{1}(?:[\\s\\w\\d\\[\\]]*)"

  /** `\w` (letters, digits, underscore), restricted to ASCII. */
  predicate IsWordChar(c: char) {
    ('a' <= c <= 'z') || ('A' <= c <= 'Z') || IsDigit(c) || c == '_'
  }

  /** The class `[\s\w\d]` left of the colon. */
  predicate InKeyClass(c: char) {
    IsWhiteSpace(c) || IsWordChar(c)
  }

  /** The class `[\s\w\d\[\]]` right of the colon. */
  predicate InValueClass(c: char) {
    InKeyClass(c) || c == '[' || c == ']'
  }

  /** `t` is matched by `-?[\s\w\d]*`. */
  predicate KeyMatches(t: string) {
    var rest := if |t| > 0 && t[0] == '-' then t[1..] else t;
    forall i :: 0 <= i < |rest| ==> InKeyClass(rest[i])
  }

  /** `t` is matched by `[\s\w\d\[\]]*`. */
  predicate ValueMatches(t: string) {
    forall i :: 0 <= i < |t| ==> InValueClass(t[i])
  }

  /** The YAML shape matches `s[i..k]`, with its single colon at `j`. */
  predicate ShapeMatchesAt(s: string, i: int, j: int, k: int)
    requires 0 <= i <= j < k <= |s|
  {
    KeyMatches(s[i..j]) && s[j] == ':' && ValueMatches(s[j + 1..k])
  }

  /** `IsYaml`: the YAML shape matches some substring (the match is not anchored). */
  predicate IsYaml(s: string) {
    exists i, j, k | 0 <= i <= j < k <= |s| :: ShapeMatchesAt(s, i, j, k)
  }

  /** Because both sides of the colon may match nothing, the shape matches exactly the texts holding a colon. */
  lemma IsYamlIffColon(s: string)
    ensures IsYaml(s) <==> ':' in s
  {
    if ':' in s {
      var j :| 0 <= j < |s| && s[j] == ':';
      assert ShapeMatchesAt(s, j, j, j + 1);
    }
  }

  /** Only the colons decide: two texts with colons in the same places are both YAML-shaped or both not. */
  lemma IsYamlIgnoresOtherCharacters(s: string, t: string)
    requires |s| == |t|
    requires forall i :: 0 <= i < |s| ==> (s[i] == ':' <==> t[i] == ':')
    ensures IsYaml(s) <==> IsYaml(t)
  {
    IsYamlIffColon(s);
    IsYamlIffColon(t);
    if ':' in s {
      var j :| 0 <= j < |s| && s[j] == ':';
      assert t[j] == ':';
    }
    if ':' in t {
      var j :| 0 <= j < |t| && t[j] == ':';
      assert s[j] == ':';
    }
  }

  /** `Id: test` holds a colon, `not yaml` none. */
  lemma YamlSniffing()
    ensures IsYaml(":") && IsYaml("Id: test") && !IsYaml("not yaml")
  {
    IsYamlIffColon(":");
    IsYamlIffColon("Id: test");
    IsYamlIffColon("not yaml");
    assert "Id: test"[2] == ':';
  }

  /** `{a: b}` opens and closes with braces and holds a colon. */
  lemma BraceColonSniffing()
    ensures IsJson("{a: b}") && IsYaml("{a: b}")
  {
    IsYamlIffColon("{a: b}");
    assert "{a: b}"[2] == ':';
  }

  /** Sniffing on the texts the source and its tests exercise. */
  lemma SniffingExamples()
    ensures !IsJson("") && !IsJson("{") && IsJson("{}") && !IsJson("not json")
    ensures IsYaml(":") && IsYaml("Id: test") && !IsYaml("not yaml")
    ensures IsJson("{a: b}") && IsYaml("{a: b}")
  {
    YamlSniffing();
    BraceColonSniffing();
  }
}
